/**
  The DNS message parser and builder of the mock target (cmd/wacht-mock/dns_target.go), on the message
  format of section 4.1 of RFC 1035. Lowercasing a label is library code and stays a parameter.
 */
module DnsMessages {

  type Bytes = seq<bv8>

  datatype DnsError = TooShort | NotOneQuestion | UnexpectedEof | Compressed
  datatype Result<T> = Ok(value: T) | Err(error: DnsError)

  datatype Question = Question(id: bv16, flags: bv16, name: Bytes, qType: bv16, qClass: bv16, question: Bytes)

  /** The labels of a name as they are on the wire, and the offset after its end. */
  datatype RawName = RawName(labels: seq<Bytes>, next: nat)

  const HEADER_LEN := 12
  const TYPE_A: bv16 := 1
  const CLASS_INET: bv16 := 1
  const RESPONSE_BIT: bv16 := 0x8000
  const RECURSION_WANT: bv16 := 0x0100
  const RECURSION_OK: bv16 := 0x0080
  const OPCODE_BITS: bv16 := 0x7800

  function Word(high: bv8, low: bv8): bv16 {
    ((high as bv16) << 8) | (low as bv16)
  }

  function Uint16(b: Bytes, i: nat): bv16
    requires i + 2 <= |b|
  {
    Word(b[i], b[i + 1])
  }

  function High(v: bv16): bv8 {
    (v >> 8) as bv8
  }

  function Low(v: bv16): bv8 {
    (v & 0xff) as bv8
  }

  lemma Uint16RoundTrip(b: Bytes, i: nat, v: bv16)
    requires i + 2 <= |b| && b[i] == High(v) && b[i + 1] == Low(v)
    ensures Uint16(b, i) == v
  {
  }

  // ---- Names --------------------------------------------------------------------------------------

  /** A length byte whose two high bits are clear is a plain label length, not a compression pointer. */
  predicate PlainLength(n: bv8) {
    n & 0xc0 == 0
  }

  function Length(n: bv8): nat {
    n as int
  }

  function ParseRaw(query: Bytes, offset: nat): (r: Result<RawName>)
    ensures r.Ok? ==> offset < r.value.next <= |query|
    decreases |query| - offset
  {
    if offset >= |query| then Err(UnexpectedEof)
    else
      var n := query[offset];
      if n == 0 then Ok(RawName([], offset + 1))
      else if !PlainLength(n) then Err(Compressed)
      else if offset + 1 + Length(n) > |query| then Err(UnexpectedEof)
      else
        match ParseRaw(query, offset + 1 + Length(n))
        case Err(e) => Err(e)
        case Ok(rest) => Ok(RawName([query[offset + 1..offset + 1 + Length(n)]] + rest.labels, rest.next))
  }

  function LengthByte(n: nat): bv8
    requires n < 64
  {
    n as bv8
  }

  /** The name format itself: length-prefixed labels closed by a zero byte. */
  function Encoded(labels: seq<Bytes>): Bytes
    requires WellFormed(labels)
  {
    if labels == [] then [0]
    else [LengthByte(|labels[0]|)] + labels[0] + Encoded(labels[1..])
  }

  predicate WellFormed(labels: seq<Bytes>) {
    forall i | 0 <= i < |labels| :: 0 < |labels[i]| < 64
  }

  lemma PlainLengthFits(n: bv8)
    requires PlainLength(n) && n != 0
    ensures 0 < Length(n) < 64 && LengthByte(Length(n)) == n
  {
  }

  lemma LengthIsPlain(n: nat)
    requires 0 < n < 64
    ensures PlainLength(LengthByte(n)) && LengthByte(n) != 0 && Length(LengthByte(n)) == n
  {
  }

  // Slices of slices, for any elements.

  lemma Slice<T>(s: seq<T>, lo: nat, hi: nat, i: nat, j: nat)
    requires lo <= hi <= |s| && i <= j <= hi - lo
    ensures s[lo..hi][i..j] == s[lo + i..lo + j]
  {
    forall k | 0 <= k < j - i ensures s[lo..hi][i..j][k] == s[lo + i..lo + j][k] {
      assert s[lo..hi][i + k] == s[lo + i + k];
    }
  }

  /** The bytes b lie in s from position i on. */
  predicate LiesAt<T(==)>(s: seq<T>, i: nat, b: seq<T>) {
    i + |b| <= |s| && s[i..i + |b|] == b
  }

  lemma PartsLieAt<T>(s: seq<T>, i: nat, x: T, a: seq<T>, b: seq<T>)
    requires LiesAt(s, i, [x] + a + b)
    ensures s[i] == x && LiesAt(s, i + 1, a) && LiesAt(s, i + 1 + |a|, b)
  {
    var whole := [x] + a + b;
    assert s[i] == s[i..i + |whole|][0];
    Slice(s, i, i + |whole|, 1, 1 + |a|);
    assert whole[1..1 + |a|] == a;
    Slice(s, i, i + |whole|, 1 + |a|, |whole|);
    assert whole[1 + |a|..|whole|] == b;
  }

  lemma CutInThree<T>(s: seq<T>, i: nat, m: nat, j: nat)
    requires i < m <= j <= |s|
    ensures s[i..j] == [s[i]] + s[i + 1..m] + s[m..j]
  {
  }

  /** What parses is an encoded name within the bounds, ending right before the returned offset. */
  lemma {:induction false} ParsedIsEncoded(query: Bytes, offset: nat)
    requires ParseRaw(query, offset).Ok?
    ensures var name := ParseRaw(query, offset).value;
            && WellFormed(name.labels)
            && query[offset..name.next] == Encoded(name.labels)
    decreases |query| - offset
  {
    hide PlainLength, Length, LengthByte;
    var n := query[offset];
    var name := ParseRaw(query, offset).value;
    if n != 0 {
      PlainLengthFits(n);
      var after := offset + 1 + Length(n);
      ParsedIsEncoded(query, after);
      assert name.labels[1..] == ParseRaw(query, after).value.labels;
      CutInThree(query, offset, after, name.next);
    }
  }

  /** Every encoded name parses back to its labels, whatever surrounds it. */
  lemma {:induction false} EncodedParses(query: Bytes, offset: nat, labels: seq<Bytes>)
    requires WellFormed(labels) && LiesAt(query, offset, Encoded(labels))
    ensures ParseRaw(query, offset) == Ok(RawName(labels, offset + |Encoded(labels)|))
    decreases |labels|
  {
    hide ParseRaw, LengthByte, LiesAt;
    if labels == [] {
      EndParses(query, offset);
    } else {
      var n := |labels[0]|;
      PartsLieAt(query, offset, LengthByte(n), labels[0], Encoded(labels[1..]));
      EncodedParses(query, offset + 1 + n, labels[1..]);
      FirstLabelParses(query, offset, labels);
    }
  }

  lemma EndParses(query: Bytes, offset: nat)
    requires LiesAt(query, offset, Encoded([]))
    ensures ParseRaw(query, offset) == Ok(RawName([], offset + |Encoded([])|))
  {
    assert query[offset] == query[offset..offset + 1][0];
  }

  lemma FirstLabelParses(query: Bytes, offset: nat, labels: seq<Bytes>)
    requires WellFormed(labels) && labels != [] && offset < |query| && query[offset] == LengthByte(|labels[0]|)
    requires LiesAt(query, offset + 1, labels[0])
    requires ParseRaw(query, offset + 1 + |labels[0]|).Ok? && ParseRaw(query, offset + 1 + |labels[0]|).value.labels == labels[1..]
    ensures ParseRaw(query, offset) == Ok(RawName(labels, ParseRaw(query, offset + 1 + |labels[0]|).value.next))
  {
    LengthIsPlain(|labels[0]|);
    hide PlainLength, Length, LengthByte;
    assert labels == [labels[0]] + labels[1..];
  }

  /** A parsed name depends on no byte at or after the returned offset, nor on any before where it starts. */
  lemma NameIsLocal(query: Bytes, other: Bytes, offset: nat)
    requires ParseRaw(query, offset).Ok? && ParseRaw(query, offset).value.next <= |other|
    requires query[offset..ParseRaw(query, offset).value.next] == other[offset..ParseRaw(query, offset).value.next]
    ensures ParseRaw(other, offset) == ParseRaw(query, offset)
  {
    hide ParseRaw, Encoded, WellFormed;
    ParsedIsEncoded(query, offset);
    assert LiesAt(other, offset, Encoded(ParseRaw(query, offset).value.labels));
    EncodedParses(other, offset, ParseRaw(query, offset).value.labels);
  }

  function Lowered(labels: seq<Bytes>, lower: Bytes -> Bytes): seq<Bytes> {
    if labels == [] then [] else [lower(labels[0])] + Lowered(labels[1..], lower)
  }

  /** strings.Join with a dot. */
  function Joined(labels: seq<Bytes>): Bytes {
    if labels == [] then [] else if |labels| == 1 then labels[0] else labels[0] + ['.' as bv8] + Joined(labels[1..])
  }

  lemma {:induction false} LoweredAppends(a: seq<Bytes>, b: seq<Bytes>, lower: Bytes -> Bytes)
    ensures Lowered(a + b, lower) == Lowered(a, lower) + Lowered(b, lower)
    decreases |a|
  {
    if a == [] {
      assert a + b == b;
    } else {
      assert (a + b)[1..] == a[1..] + b;
      LoweredAppends(a[1..], b, lower);
    }
  }

  /** A parse that already collected some labels. */
  ghost function After(raw: seq<Bytes>, rest: Result<RawName>): Result<RawName> {
    match rest
    case Err(e) => Err(e)
    case Ok(name) => Ok(RawName(raw + name.labels, name.next))
  }

  lemma AfterNothing(rest: Result<RawName>)
    ensures After([], rest) == rest
  {
    if rest.Ok? {
      assert [] + rest.value.labels == rest.value.labels;
    }
  }

  lemma AfterOne(raw: seq<Bytes>, part: Bytes, rest: Result<RawName>)
    ensures After(raw, After([part], rest)) == After(raw + [part], rest)
  {
    if rest.Ok? {
      assert raw + ([part] + rest.value.labels) == raw + [part] + rest.value.labels;
    }
  }

  /** parseDNSName: an index loop that collects labels. */
  method ParseDnsName(query: Bytes, offset: nat, lower: Bytes -> Bytes) returns (r: Result<(Bytes, nat)>)
    ensures r == match ParseRaw(query, offset)
                 case Err(e) => Err(e)
                 case Ok(name) => Ok((Joined(Lowered(name.labels, lower)), name.next))
  {
    var labels: seq<Bytes> := [];
    hide Length, Joined;
    ghost var raw: seq<Bytes> := [];
    var i := offset;
    AfterNothing(ParseRaw(query, i));
    while true
      invariant labels == Lowered(raw, lower)
      invariant ParseRaw(query, offset) == After(raw, ParseRaw(query, i))
      decreases |query| - i
    {
      if i >= |query| {
        return Err(UnexpectedEof);
      }
      var n := query[i];
      i := i + 1;
      if n == 0 {
        assert raw + [] == raw;
        return Ok((Joined(labels), i));
      }
      if n & 0xc0 != 0 {
        return Err(Compressed);
      }
      if i + Length(n) > |query| {
        return Err(UnexpectedEof);
      }
      ghost var part := query[i..i + Length(n)];
      LoweredAppends(raw, [part], lower);
      AfterOne(raw, part, ParseRaw(query, i + Length(n)));
      raw := raw + [part];
      labels := labels + [lower(query[i..i + Length(n)])];
      i := i + Length(n);
    }
  }

  // ---- Questions ----------------------------------------------------------------------------------

  function Parsed(query: Bytes, lower: Bytes -> Bytes): Result<Question> {
    if |query| < HEADER_LEN then Err(TooShort)
    else if Uint16(query, 4) != 1 then Err(NotOneQuestion)
    else
      match ParseRaw(query, HEADER_LEN)
      case Err(e) => Err(e)
      case Ok(name) =>
        if |query| < name.next + 4 then Err(UnexpectedEof)
        else
          ParsedIsEncoded(query, HEADER_LEN);
          Ok(Question(Uint16(query, 0), Uint16(query, 2), Joined(Lowered(name.labels, lower)),
                      Uint16(query, name.next), Uint16(query, name.next + 2), query[HEADER_LEN..name.next + 4]))
  }

  method ParseDnsQuestion(query: Bytes, lower: Bytes -> Bytes) returns (r: Result<Question>)
    ensures r == Parsed(query, lower)
  {
    if |query| < HEADER_LEN {
      return Err(TooShort);
    }
    if Uint16(query, 4) != 1 {
      return Err(NotOneQuestion);
    }
    var parsed := ParseDnsName(query, HEADER_LEN, lower);
    match parsed {
      case Err(e) =>
        return Err(e);
      case Ok((name, next)) =>
        if |query| < next + 4 {
          return Err(UnexpectedEof);
        }
        ParsedIsEncoded(query, HEADER_LEN);
        var questionEnd := next + 4;
        return Ok(Question(Uint16(query, 0), Uint16(query, 2), name, Uint16(query, next), Uint16(query, next + 2),
                           query[HEADER_LEN..questionEnd]));
    }
  }

  /** The fixed part behind the name: type and class. */
  function TypeAndClass(qType: bv16, qClass: bv16): Bytes {
    [High(qType), Low(qType), High(qClass), Low(qClass)]
  }

  /** A message with one question: the header with its other counts, name, type and class, and whatever follows. */
  function Query(id: bv16, flags: bv16, counts: Bytes, labels: seq<Bytes>, qType: bv16, qClass: bv16, rest: Bytes): Bytes
    requires WellFormed(labels)
  {
    [High(id), Low(id), High(flags), Low(flags), 0, 1] + counts + Encoded(labels) + TypeAndClass(qType, qClass) + rest
  }

  /** Every such message parses to its own fields. */
  lemma QueryParses(id: bv16, flags: bv16, counts: Bytes, labels: seq<Bytes>, qType: bv16, qClass: bv16, rest: Bytes, lower: Bytes -> Bytes)
    requires WellFormed(labels) && |counts| == 6
    ensures Parsed(Query(id, flags, counts, labels, qType, qClass, rest), lower)
            == Ok(Question(id, flags, Joined(Lowered(labels, lower)), qType, qClass, Encoded(labels) + TypeAndClass(qType, qClass)))
  {
    hide Encoded, ParseRaw, High, Low, Word, Joined;
    var head, name := [High(id), Low(id), High(flags), Low(flags), 0, 1] + counts, Encoded(labels);
    var query := Query(id, flags, counts, labels, qType, qClass, rest);
    var next := HEADER_LEN + |name|;
    assert query == head + name + TypeAndClass(qType, qClass) + rest;
    assert LiesAt(query, HEADER_LEN, name);
    EncodedParses(query, HEADER_LEN, labels);
    assert query[HEADER_LEN..next + 4] == name + TypeAndClass(qType, qClass);
    assert forall i | 0 <= i < 4 :: query[next + i] == TypeAndClass(qType, qClass)[i];
    Uint16RoundTrip(query, 0, id);
    Uint16RoundTrip(query, 2, flags);
    Uint16RoundTrip(query, next, qType);
    Uint16RoundTrip(query, next + 2, qClass);
    OneQuestion(query);
  }

  lemma OneQuestion(query: Bytes)
    requires |query| >= HEADER_LEN
    ensures Uint16(query, 4) == 1 <==> query[4] == 0 && query[5] == 1
  {
  }

  lemma WordSplits(high: bv8, low: bv8)
    ensures High(Word(high, low)) == high && Low(Word(high, low)) == low
  {
  }

  lemma CutInFive<T>(s: seq<T>, i: nat, j: nat, k: nat, l: nat)
    requires i <= j <= k <= l <= |s|
    ensures s == s[..i] + s[i..j] + s[j..k] + s[k..l] + s[l..]
  {
  }

  /** And nothing else parses. */
  lemma ParsedIsQuery(query: Bytes, lower: Bytes -> Bytes) returns (labels: seq<Bytes>, rest: Bytes)
    requires Parsed(query, lower).Ok?
    ensures var q := Parsed(query, lower).value;
            && WellFormed(labels) && q.name == Joined(Lowered(labels, lower))
            && query == Query(q.id, q.flags, query[6..12], labels, q.qType, q.qClass, rest)
  {
    hide Encoded, ParseRaw, High, Low, Word, Joined;
    var name := ParseRaw(query, HEADER_LEN).value;
    ParsedIsEncoded(query, HEADER_LEN);
    labels, rest := name.labels, query[name.next + 4..];
    OneQuestion(query);
    WordSplits(query[0], query[1]);
    WordSplits(query[2], query[3]);
    WordSplits(query[name.next], query[name.next + 1]);
    WordSplits(query[name.next + 2], query[name.next + 3]);
    assert query[name.next..name.next + 4] == TypeAndClass(Uint16(query, name.next), Uint16(query, name.next + 2));
    assert query[..6] == [query[0], query[1], query[2], query[3], query[4], query[5]];
    CutInFive(query, 6, 12, name.next, name.next + 4);
  }

  // ---- Responses ----------------------------------------------------------------------------------

  function ResponseFlags(flags: bv16, rCode: bv16): bv16 {
    RESPONSE_BIT | RECURSION_OK | (flags & RECURSION_WANT) | (flags & OPCODE_BITS) | rCode
  }

  /** A response is marked as one, keeps opcode and RD, offers recursion, and carries the response code; the rest is clear. */
  lemma FlagsOfResponse(flags: bv16, rCode: bv16)
    requires rCode < 16
    ensures var f := ResponseFlags(flags, rCode);
            && f & RESPONSE_BIT == RESPONSE_BIT && f & RECURSION_OK == RECURSION_OK && f & 0x000f == rCode
            && f & OPCODE_BITS == flags & OPCODE_BITS && f & RECURSION_WANT == flags & RECURSION_WANT
            && f & 0x0670 == 0
  {
  }

  /** A response code of 16 or more would spill into the flags, so the bound is exact. */
  lemma LargeCodeSpills(flags: bv16, rCode: bv16)
    ensures ResponseFlags(flags, rCode) & 0x000f == rCode <==> rCode < 16
  {
  }

  method PutUint16(buffer: array<bv8>, i: nat, v: bv16)
    requires i + 2 <= buffer.Length
    modifies buffer
    ensures buffer[..] == old(buffer[..])[i := High(v)][i + 1 := Low(v)]
  {
    buffer[i] := (v >> 8) as bv8;
    buffer[i + 1] := (v & 0xff) as bv8;
  }

  function Header(id: bv16, flags: bv16, answers: bv16): Bytes {
    [High(id), Low(id), High(flags), Low(flags), 0, 1, High(answers), Low(answers), 0, 0, 0, 0]
  }

  function Response(q: Question, rCode: bv16, answer: Bytes): Bytes {
    Header(q.id, ResponseFlags(q.flags, rCode), if |answer| > 0 then 1 else 0) + q.question + answer
  }

  method BuildDnsResponse(q: Question, rCode: bv16, answer: Bytes) returns (response: Bytes)
    ensures response == Response(q, rCode, answer)
  {
    var flags := RESPONSE_BIT | RECURSION_OK | (q.flags & RECURSION_WANT) | (q.flags & OPCODE_BITS) | rCode;
    var answerCount: bv16 := 0;
    if |answer| > 0 {
      answerCount := 1;
    }
    assert High(1) == 0 && Low(1) == 1 && High(0) == 0 && Low(0) == 0;
    hide High, Low;
    var header := new bv8[HEADER_LEN];
    PutUint16(header, 0, q.id);
    PutUint16(header, 2, flags);
    PutUint16(header, 4, 1);
    PutUint16(header, 6, answerCount);
    PutUint16(header, 8, 0);
    PutUint16(header, 10, 0);
    response := header[..] + q.question + answer;
  }

  lemma ResponseHeader(q: Question, rCode: bv16, answer: Bytes)
    ensures var r := Response(q, rCode, answer);
            && |r| == HEADER_LEN + |q.question| + |answer|
            && Uint16(r, 0) == q.id && Uint16(r, 2) == ResponseFlags(q.flags, rCode) && Uint16(r, 4) == 1
            && Uint16(r, 8) == 0 && Uint16(r, 10) == 0
            && Uint16(r, 6) == if |answer| > 0 then 1 else 0
  {
    hide ResponseFlags;
    var r := Response(q, rCode, answer);
    assert r[..HEADER_LEN] == Header(q.id, ResponseFlags(q.flags, rCode), if |answer| > 0 then 1 else 0);
    assert forall i | 0 <= i < HEADER_LEN :: r[i] == r[..HEADER_LEN][i];
    Uint16RoundTrip(r, 0, q.id);
    Uint16RoundTrip(r, 2, ResponseFlags(q.flags, rCode));
  }

  lemma ResponseBody(q: Question, rCode: bv16, answer: Bytes)
    ensures var r := Response(q, rCode, answer);
            && |r| == HEADER_LEN + |q.question| + |answer|
            && r[HEADER_LEN..HEADER_LEN + |q.question|] == q.question
            && r[HEADER_LEN + |q.question|..] == answer
  {
    hide ResponseFlags, High, Low;
  }

  /** Equal stretches have equal parts. */
  lemma SamePart(a: Bytes, b: Bytes, lo: nat, hi: nat, i: nat, j: nat)
    requires lo <= i <= j <= hi <= |a| && hi <= |b| && a[lo..hi] == b[lo..hi]
    ensures a[i..j] == b[i..j]
  {
    Slice(a, lo, hi, i - lo, j - lo);
    Slice(b, lo, hi, i - lo, j - lo);
  }

  lemma SameUint16(a: Bytes, b: Bytes, lo: nat, hi: nat, i: nat)
    requires lo <= i && i + 2 <= hi <= |a| && hi <= |b| && a[lo..hi] == b[lo..hi]
    ensures Uint16(a, i) == Uint16(b, i)
  {
    hide Word;
    assert a[i] == a[lo..hi][i - lo] == b[i];
    assert a[i + 1] == a[lo..hi][i + 1 - lo] == b[i + 1];
  }

  /** A message that has one question and the bytes of a parsed question has the same question. */
  lemma SameQuestion(query: Bytes, other: Bytes, lower: Bytes -> Bytes)
    requires Parsed(query, lower).Ok?
    requires var end := HEADER_LEN + |Parsed(query, lower).value.question|;
             end <= |other| && Uint16(other, 4) == 1 && other[HEADER_LEN..end] == Parsed(query, lower).value.question
    ensures Parsed(other, lower) == Ok(Parsed(query, lower).value.(id := Uint16(other, 0), flags := Uint16(other, 2)))
    ensures ParseRaw(other, HEADER_LEN) == ParseRaw(query, HEADER_LEN)
  {
    hide Uint16, ParseRaw, Lowered, Joined;
    var next := ParseRaw(query, HEADER_LEN).value.next;
    assert query[HEADER_LEN..next + 4] == other[HEADER_LEN..next + 4];
    SamePart(query, other, HEADER_LEN, next + 4, HEADER_LEN, next);
    NameIsLocal(query, other, HEADER_LEN);
    SameUint16(query, other, HEADER_LEN, next + 4, next);
    SameUint16(query, other, HEADER_LEN, next + 4, next + 2);
  }

  /**
    Echo: for every query that parses, every response code and every answer, the response parses to the same ID,
    name, type, class and question bytes, and its flags are those of the response.
   */
  lemma EchoRoundTrip(query: Bytes, lower: Bytes -> Bytes, rCode: bv16, answer: Bytes)
    requires Parsed(query, lower).Ok?
    ensures var q := Parsed(query, lower).value;
            Parsed(Response(q, rCode, answer), lower) == Ok(q.(flags := ResponseFlags(q.flags, rCode)))
  {
    hide Parsed, Response, ResponseFlags, Uint16;
    var q := Parsed(query, lower).value;
    ResponseHeader(q, rCode, answer);
    ResponseBody(q, rCode, answer);
    SameQuestion(query, Response(q, rCode, answer), lower);
  }

  function ARecord(ip: Bytes): Bytes {
    [0xc0, 0x0c, 0, 1, 0, 1, 0, 0, 0, 1, 0, 4] + ip
  }

  method BuildARecord(ip: Bytes) returns (record: Bytes)
    requires |ip| == 4
    ensures record == ARecord(ip)
  {
    var buffer := new bv8[16];
    buffer[0] := 0xc0;
    buffer[1] := 0x0c;
    PutUint16(buffer, 2, TYPE_A);
    PutUint16(buffer, 4, CLASS_INET);
    PutUint16(buffer, 6, 0);
    PutUint16(buffer, 8, 1);
    PutUint16(buffer, 10, 4);
    for i := 0 to 4
      invariant buffer[..12] == ARecord(ip)[..12]
      invariant forall j | 0 <= j < i :: buffer[12 + j] == ip[j]
    {
      buffer[12 + i] := ip[i];
    }
    record := buffer[..];
    assert record == record[..12] + record[12..];
    assert record[12..] == ip;
  }

  lemma RecordFields(ip: Bytes)
    requires |ip| == 4
    ensures var r := ARecord(ip);
            && |r| == 16 && Uint16(r, 0) & 0xc000 == 0xc000 && (Uint16(r, 0) & 0x3fff) as int == 12
            && Uint16(r, 2) == 1 && Uint16(r, 4) == 1 && Uint16(r, 6) == 0 && Uint16(r, 8) == 1 && Uint16(r, 10) == 4
  {
    assert Uint16(ARecord(ip), 0) & 0x3fff == 12;
  }

  /**
    An answered response is a well-formed message: one question, one answer, and an answer record whose owner is a
    compression pointer to the offset where the echoed name starts.
   */
  lemma AnswerPointsAtName(query: Bytes, lower: Bytes -> Bytes, ip: Bytes)
    requires Parsed(query, lower).Ok? && |ip| == 4
    ensures var q := Parsed(query, lower).value;
            var response := Response(q, 0, ARecord(ip));
            var at := HEADER_LEN + |q.question|;
            && |response| == at + 16 && Uint16(response, 0) == q.id
            && Uint16(response, 4) == 1 && Uint16(response, 6) == 1 && Uint16(response, 8) == 0 && Uint16(response, 10) == 0
            && Uint16(response, at) & 0xc000 == 0xc000
            && ParseRaw(response, (Uint16(response, at) & 0x3fff) as int) == ParseRaw(query, HEADER_LEN)
            && Uint16(response, at + 2) == 1 && Uint16(response, at + 4) == 1
            && Uint16(response, at + 6) == 0 && Uint16(response, at + 8) == 1 && Uint16(response, at + 10) == 4 && response[at + 12..] == ip
  {
    hide Parsed, Response, ParseRaw;
    var q := Parsed(query, lower).value;
    var response := Response(q, 0, ARecord(ip));
    var at := HEADER_LEN + |q.question|;
    ResponseHeader(q, 0, ARecord(ip));
    ResponseBody(q, 0, ARecord(ip));
    SameQuestion(query, response, lower);
    var record := ARecord(ip);
    assert forall i | 0 <= i < 16 :: response[at + i] == response[at..][i] == record[i];
    assert response[at + 12..] == response[at..][12..] == ip;
    RecordFields(ip);
    hide Word, ARecord;
    assert Uint16(response, at) == Uint16(record, 0);
    assert Uint16(response, at + 2) == Uint16(record, 2) && Uint16(response, at + 4) == Uint16(record, 4);
    assert Uint16(response, at + 6) == Uint16(record, 6) && Uint16(response, at + 8) == Uint16(record, 8);
    assert Uint16(response, at + 10) == Uint16(record, 10);
  }

  // ---- The target -----------------------------------------------------------------------------------

  const RCODE_NO_ERROR: bv16 := 0
  const RCODE_NX_DOMAIN: bv16 := 3

  datatype Reply = Answered(response: Bytes) | Proxied(query: Bytes)

  /**
    handleMessage: a query for another name is forwarded unchanged; a query for the fixture gets a response that
    parses back to the very question, with NXDOMAIN exactly when the target is down, and with one answer exactly
    when it is up and asked for an address.
   */
  method HandleMessage(query: Bytes, up: bool, host: Bytes, ip: Bytes, lower: Bytes -> Bytes, normalize: Bytes -> Bytes)
    returns (r: Result<Reply>)
    requires |ip| == 4
    ensures r.Err? <==> Parsed(query, lower).Err?
    ensures r.Err? ==> r.error == Parsed(query, lower).error
    ensures r.Ok? ==> (r.value.Proxied? <==> normalize(Parsed(query, lower).value.name) != host)
    ensures r.Ok? && r.value.Proxied? ==> r.value.query == query
    ensures r.Ok? && r.value.Answered? ==>
              var q := Parsed(query, lower).value;
              var response := r.value.response;
              && Parsed(response, lower) == Ok(q.(flags := ResponseFlags(q.flags, if up then 0 else 3)))
              && response[HEADER_LEN + |q.question|..] ==
                   (if up && q.qType == 1 && q.qClass == 1 then ARecord(ip) else [])
              && Uint16(response, 6) == (if up && q.qType == 1 && q.qClass == 1 then 1 else 0)
  {
    hide Parsed, ResponseFlags, Response, Uint16;
    var parsed := ParseDnsQuestion(query, lower);
    if parsed.Err? {
      return Err(parsed.error);
    }
    var q := parsed.value;
    if normalize(q.name) != host {
      return Ok(Proxied(query));
    }
    var rCode, answer := RCODE_NO_ERROR, [];
    if !up {
      rCode := RCODE_NX_DOMAIN;
    } else if q.qType == TYPE_A && q.qClass == CLASS_INET {
      answer := BuildARecord(ip);
    }
    EchoRoundTrip(query, lower, rCode, answer);
    ResponseHeader(q, rCode, answer);
    ResponseBody(q, rCode, answer);
    var response := BuildDnsResponse(q, rCode, answer);
    return Ok(Answered(response));
  }
}
