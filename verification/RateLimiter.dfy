/** The fixed-window rate limiter (newRateLimiter and allow in internal/server/auth.go). */
module RateLimiting {
  import opened MonitoringTypes

  datatype Key = Key(ip: string)
  datatype Bucket = Bucket(count: nat, resetAt: Time)

  /**
    One call: the clock is read when the bucket is checked and again when a new bucket is stamped. The request
    counts as made at some moment in between.
   */
  datatype Request = Request(key: Key, checkedAt: Time, at: Time, stampedAt: Time)

  const DEFAULT_LIMIT := 10
  const DEFAULT_WINDOW: int := 60_000_000_000

  type Tokens = map<Key, Bucket>

  // ---- One call -------------------------------------------------------------------------------------

  function BucketOf(tokens: Tokens, k: Key): Option<Bucket> {
    if k in tokens then Some(tokens[k]) else None
  }

  /** A call that starts a new bucket: there was none, or its window is over. */
  predicate Resets(b: Option<Bucket>, r: Request) {
    b.None? || r.checkedAt > b.value.resetAt
  }

  predicate Admits(b: Option<Bucket>, r: Request, limit: int) {
    Resets(b, r) || b.value.count < limit
  }

  function NextBucket(b: Option<Bucket>, r: Request, limit: int, window: int): Bucket {
    if Resets(b, r) then Bucket(1, r.stampedAt + window)
    else if b.value.count < limit then b.value.(count := b.value.count + 1)
    else b.value
  }

  class RateLimiter {
    var tokens: Tokens
    const limit: int
    const window: int

    constructor (limit: int, window: int)
      ensures this.limit == (if limit <= 0 then 10 else limit) && this.limit > 0
      ensures this.window == (if window <= 0 then 60_000_000_000 else window) && this.window > 0
      ensures tokens == map[]
    {
      this.limit := if limit <= 0 then DEFAULT_LIMIT else limit;
      this.window := if window <= 0 then DEFAULT_WINDOW else window;
      tokens := map[];
    }

    method Allow(r: Request) returns (ok: bool)
      modifies this
      ensures ok == Admits(BucketOf(old(tokens), r.key), r, limit)
      ensures tokens == old(tokens)[r.key := NextBucket(BucketOf(old(tokens), r.key), r, limit, window)]
    {
      if r.key !in tokens || r.checkedAt > tokens[r.key].resetAt {
        tokens := tokens[r.key := Bucket(1, r.stampedAt + window)];
        return true;
      }
      if tokens[r.key].count >= limit {
        return false;
      }
      tokens := tokens[r.key := tokens[r.key].(count := tokens[r.key].count + 1)];
      return true;
    }

    /** A whole run of calls; the times of the admitted requests of one key are those of the specification. */
    method Serve(requests: seq<Request>, k: Key) returns (admitted: seq<Time>)
      modifies this
      ensures admitted == Admitted(old(tokens), requests, k, limit, window)
    {
      admitted := [];
      ghost var start := tokens;
      for i := 0 to |requests|
        invariant tokens == After(start, requests[..i], limit, window)
        invariant admitted == Admitted(start, requests[..i], k, limit, window)
      {
        assert requests[..i + 1][..i] == requests[..i];
        var ok := Allow(requests[i]);
        if ok && requests[i].key == k {
          admitted := admitted + [requests[i].at];
        }
      }
      assert requests[..|requests|] == requests;
    }
  }

  // ---- Runs -----------------------------------------------------------------------------------------

  function After(tokens: Tokens, requests: seq<Request>, limit: int, window: int): Tokens {
    if requests == [] then tokens
    else
      var n := |requests| - 1;
      var before := After(tokens, requests[..n], limit, window);
      var r := requests[n];
      before[r.key := NextBucket(BucketOf(before, r.key), r, limit, window)]
  }

  /** When the admitted requests of one key were made. */
  function Admitted(tokens: Tokens, requests: seq<Request>, k: Key, limit: int, window: int): seq<Time> {
    if requests == [] then []
    else
      var n := |requests| - 1;
      var r := requests[n];
      var before := After(tokens, requests[..n], limit, window);
      Admitted(tokens, requests[..n], k, limit, window) +
      (if r.key == k && Admits(BucketOf(before, k), r, limit) then [r.at] else [])
  }

  /** A run with a clock that never goes back. */
  ghost predicate Clocked(requests: seq<Request>) {
    && (forall i | 0 <= i < |requests| :: requests[i].checkedAt <= requests[i].at <= requests[i].stampedAt)
    && (forall i, j | 0 <= i < j < |requests| :: requests[i].stampedAt <= requests[j].checkedAt)
  }

  function CountWithin(times: seq<Time>, from: Time, window: int): nat {
    if times == [] then 0
    else
      var n := |times| - 1;
      CountWithin(times[..n], from, window) + (if from <= times[n] <= from + window then 1 else 0)
  }

  // ---- Other keys do not matter -----------------------------------------------------------------------

  function Only(requests: seq<Request>, k: Key): seq<Request> {
    if requests == [] then []
    else
      var n := |requests| - 1;
      Only(requests[..n], k) + (if requests[n].key == k then [requests[n]] else [])
  }

  /** What a key gets is what it would get alone, from a limiter that agrees on its own bucket. */
  lemma {:induction false} KeysAreIndependent(tokens: Tokens, other: Tokens, requests: seq<Request>, k: Key, limit: int, window: int)
    requires BucketOf(tokens, k) == BucketOf(other, k)
    ensures BucketOf(After(tokens, requests, limit, window), k) == BucketOf(After(other, Only(requests, k), limit, window), k)
    ensures Admitted(tokens, requests, k, limit, window) == Admitted(other, Only(requests, k), k, limit, window)
    decreases |requests|
  {
    if requests != [] {
      var n := |requests| - 1;
      KeysAreIndependent(tokens, other, requests[..n], k, limit, window);
      if requests[n].key == k {
        var alone := Only(requests, k);
        assert alone[..|alone| - 1] == Only(requests[..n], k) && alone[|alone| - 1] == requests[n];
      } else {
        assert Only(requests, k) == Only(requests[..n], k);
      }
    }
  }

  // ---- Nobody is refused without cause --------------------------------------------------------------------

  /** How many requests of a key were admitted, and stamped at or after a moment. */
  function AdmittedSince(requests: seq<Request>, k: Key, limit: int, window: int, since: Time): nat {
    if requests == [] then 0
    else
      var n := |requests| - 1;
      var r, b := requests[n], BucketOf(After(map[], requests[..n], limit, window), k);
      AdmittedSince(requests[..n], k, limit, window, since) + (if r.key == k && r.stampedAt >= since && Admits(b, r, limit) then 1 else 0)
  }

  lemma {:induction false} EarlierCountsMore(requests: seq<Request>, k: Key, limit: int, window: int, since: Time, earlier: Time)
    requires earlier <= since
    ensures AdmittedSince(requests, k, limit, window, since) <= AdmittedSince(requests, k, limit, window, earlier)
    decreases |requests|
  {
    if requests != [] {
      EarlierCountsMore(requests[..|requests| - 1], k, limit, window, since, earlier);
    }
  }

  /** A bucket counts no more than what was admitted since it was stamped. */
  lemma {:induction false} BucketIsEarned(requests: seq<Request>, k: Key, limit: int, window: int)
    requires Clocked(requests)
    ensures var b := BucketOf(After(map[], requests, limit, window), k);
            b.Some? ==>
              && requests != [] && b.value.resetAt - window <= requests[|requests| - 1].stampedAt
              && AdmittedSince(requests, k, limit, window, b.value.resetAt - window) >= b.value.count
    decreases |requests|
  {
    if requests != [] {
      var n := |requests| - 1;
      BucketIsEarned(requests[..n], k, limit, window);
      if n > 0 {
        assert requests[..n][n - 1].stampedAt <= requests[n].checkedAt;
      }
    }
  }

  /** In every run with a clock that never goes back, a refused key had its full limit admitted within the last window. */
  lemma RefusalHasCause(requests: seq<Request>, n: nat, limit: int, window: int)
    requires Clocked(requests) && n < |requests|
    requires !Admits(BucketOf(After(map[], requests[..n], limit, window), requests[n].key), requests[n], limit)
    ensures AdmittedSince(requests[..n], requests[n].key, limit, window, requests[n].checkedAt - window) >= limit
  {
    var k := requests[n].key;
    BucketIsEarned(requests[..n], k, limit, window);
    var b := BucketOf(After(map[], requests[..n], limit, window), k).value;
    EarlierCountsMore(requests[..n], k, limit, window, b.resetAt - window, requests[n].checkedAt - window);
  }

  // ---- The bound ----------------------------------------------------------------------------------------

  /** An admission with the number of the bucket that admitted it, and whether it started that bucket. */
  datatype Admission = Admission(at: Time, bucket: nat, first: bool)

  datatype Ledger = Ledger(admissions: seq<Admission>, bucket: nat)

  function BookOne(l: Ledger, b: Option<Bucket>, r: Request, k: Key, limit: int): Ledger {
    if r.key != k then l
    else if Resets(b, r) then Ledger(l.admissions + [Admission(r.at, l.bucket + 1, true)], l.bucket + 1)
    else if b.value.count < limit then l.(admissions := l.admissions + [Admission(r.at, l.bucket, false)])
    else l
  }

  /** The same run of one key, with bookkeeping. */
  ghost function Booked(tokens: Tokens, requests: seq<Request>, k: Key, limit: int, window: int): Ledger {
    if requests == [] then Ledger([], 0)
    else
      var n := |requests| - 1;
      var b := BucketOf(After(tokens, requests[..n], limit, window), k);
      BookOne(Booked(tokens, requests[..n], k, limit, window), b, requests[n], k, limit)
  }

  function Times(admissions: seq<Admission>): (times: seq<Time>)
    ensures |times| == |admissions|
  {
    if admissions == [] then []
    else Times(admissions[..|admissions| - 1]) + [admissions[|admissions| - 1].at]
  }

  lemma {:induction false} BookedIsAdmitted(tokens: Tokens, requests: seq<Request>, k: Key, limit: int, window: int)
    ensures Times(Booked(tokens, requests, k, limit, window).admissions) == Admitted(tokens, requests, k, limit, window)
    decreases |requests|
  {
    if requests != [] {
      var n := |requests| - 1;
      BookedIsAdmitted(tokens, requests[..n], k, limit, window);
      var before := Booked(tokens, requests[..n], k, limit, window).admissions;
      var now := Booked(tokens, requests, k, limit, window).admissions;
      assert now != before ==> now[..|now| - 1] == before;
    }
  }

  function CountBucket(admissions: seq<Admission>, bucket: nat): nat {
    if admissions == [] then 0
    else
      var n := |admissions| - 1;
      CountBucket(admissions[..n], bucket) + (if admissions[n].bucket == bucket then 1 else 0)
  }

  /** Those that did not start the bucket. */
  function CountLater(admissions: seq<Admission>, bucket: nat): nat {
    if admissions == [] then 0
    else
      var n := |admissions| - 1;
      CountLater(admissions[..n], bucket) + (if admissions[n].bucket == bucket && !admissions[n].first then 1 else 0)
  }

  lemma {:induction false} NoneYet(admissions: seq<Admission>, bucket: nat)
    requires forall i | 0 <= i < |admissions| :: admissions[i].bucket != bucket
    ensures CountBucket(admissions, bucket) == 0 && CountLater(admissions, bucket) == 0
    decreases |admissions|
  {
    if admissions != [] {
      NoneYet(admissions[..|admissions| - 1], bucket);
    }
  }

  lemma {:induction false} SomeOf(admissions: seq<Admission>, bucket: nat) returns (j: nat)
    requires CountBucket(admissions, bucket) > 0
    ensures j < |admissions| && admissions[j].bucket == bucket
    decreases |admissions|
  {
    j := |admissions| - 1;
    if admissions[j].bucket != bucket {
      j := SomeOf(admissions[..j], bucket);
    }
  }

  lemma CountNext(admissions: seq<Admission>, a: Admission, bucket: nat)
    ensures CountBucket(admissions + [a], bucket) == CountBucket(admissions, bucket) + (if a.bucket == bucket then 1 else 0)
    ensures CountLater(admissions + [a], bucket) == CountLater(admissions, bucket) + (if a.bucket == bucket && !a.first then 1 else 0)
  {
    assert (admissions + [a])[..|admissions|] == admissions;
  }

  /** The two requests are more than a window apart if a whole bucket, or the start of one, lies between them. */
  predicate Apart(a: Admission, c: Admission, window: int) {
    a.bucket + 1 < c.bucket || (a.first && a.bucket < c.bucket) ==> a.at + window < c.at
  }

  /** An admission that the next bucket must be a window away from. */
  predicate Before(a: Admission, bucket: nat, resetAt: Time, window: int) {
    && 0 < a.bucket <= bucket
    && (a.bucket < bucket || a.first ==> a.at + window <= resetAt)
  }

  ghost predicate Counts(l: Ledger, count: nat, limit: int) {
    && count > 0 && CountBucket(l.admissions, l.bucket) == count && CountLater(l.admissions, l.bucket) == count - 1
    && forall n: nat :: CountBucket(l.admissions, n) <= limit && CountLater(l.admissions, n) < limit
  }

  ghost predicate Spaced(l: Ledger, resetAt: Time, now: Time, window: int) {
    && (forall i | 0 <= i < |l.admissions| :: l.admissions[i].at <= now && Before(l.admissions[i], l.bucket, resetAt, window))
    && (forall i, j | 0 <= i < |l.admissions| && 0 <= j < |l.admissions| :: Apart(l.admissions[i], l.admissions[j], window))
  }

  /** What the bookkeeping says about a key's bucket after every run. */
  ghost predicate Kept(l: Ledger, b: Option<Bucket>, now: Time, limit: int, window: int) {
    if b.None? then l == Ledger([], 0)
    else Counts(l, b.value.count, limit) && Spaced(l, b.value.resetAt, now, window)
  }

  lemma ResetKeeps(l: Ledger, b: Option<Bucket>, now: Time, r: Request, limit: int, window: int)
    requires limit > 0 && window > 0 && Kept(l, b, now, limit, window) && Resets(b, r)
    requires now <= r.checkedAt <= r.at <= r.stampedAt
    ensures Kept(Ledger(l.admissions + [Admission(r.at, l.bucket + 1, true)], l.bucket + 1),
                 Some(Bucket(1, r.stampedAt + window)), r.stampedAt, limit, window)
  {
    var a := Admission(r.at, l.bucket + 1, true);
    var l' := Ledger(l.admissions + [a], l.bucket + 1);
    if b.None? {
      assert forall n: nat :: CountBucket(l.admissions, n) == 0 && CountLater(l.admissions, n) == 0;
    }
    assert Counts(l', 1, limit) by {
      NoneYet(l.admissions, l.bucket + 1);
      forall n: nat ensures CountBucket(l'.admissions, n) <= limit && CountLater(l'.admissions, n) < limit {
        CountNext(l.admissions, a, n);
      }
      CountNext(l.admissions, a, l.bucket + 1);
    }
    assert Spaced(l', r.stampedAt + window, r.stampedAt, window) by {
      hide Counts;
    }
  }

  lemma CountKeeps(l: Ledger, b: Bucket, now: Time, r: Request, limit: int, window: int)
    requires limit > 0 && window > 0 && Kept(l, Some(b), now, limit, window) && !Resets(Some(b), r) && b.count < limit
    requires now <= r.checkedAt <= r.at <= r.stampedAt
    ensures Kept(l.(admissions := l.admissions + [Admission(r.at, l.bucket, false)]), Some(b.(count := b.count + 1)),
                 r.stampedAt, limit, window)
  {
    var a := Admission(r.at, l.bucket, false);
    var l' := l.(admissions := l.admissions + [a]);
    assert Counts(l', b.count + 1, limit) by {
      forall n: nat ensures CountBucket(l'.admissions, n) <= limit && CountLater(l'.admissions, n) < limit {
        CountNext(l.admissions, a, n);
      }
      CountNext(l.admissions, a, l.bucket);
    }
    var j := SomeOf(l.admissions, l.bucket);
    assert Spaced(l', b.resetAt, r.stampedAt, window) by {
      hide Counts;
      assert forall i | 0 <= i < |l.admissions| :: Apart(l.admissions[i], l.admissions[j], window);
    }
  }

  lemma StepKeeps(l: Ledger, b: Option<Bucket>, r: Request, k: Key, limit: int, window: int)
    requires limit > 0 && window > 0 && Kept(l, b, r.checkedAt, limit, window) && r.checkedAt <= r.at <= r.stampedAt
    ensures Kept(BookOne(l, b, r, k, limit), if r.key == k then Some(NextBucket(b, r, limit, window)) else b, r.stampedAt, limit, window)
  {
    hide Kept;
    if r.key == k && Resets(b, r) {
      ResetKeeps(l, b, r.checkedAt, r, limit, window);
    } else if r.key == k && b.value.count < limit {
      CountKeeps(l, b.value, r.checkedAt, r, limit, window);
    } else {
      KeptLater(l, b, r.checkedAt, r.stampedAt, limit, window);
    }
  }

  lemma {:induction false} RunKeeps(requests: seq<Request>, k: Key, limit: int, window: int, now: Time)
    requires limit > 0 && window > 0 && Clocked(requests)
    requires requests != [] ==> requests[|requests| - 1].stampedAt <= now
    ensures Kept(Booked(map[], requests, k, limit, window), BucketOf(After(map[], requests, limit, window), k), now, limit, window)
    decreases |requests|
  {
    if requests != [] {
      hide Kept, BookOne, NextBucket;
      var n := |requests| - 1;
      var r := requests[n];
      var l := Booked(map[], requests[..n], k, limit, window);
      var b := BucketOf(After(map[], requests[..n], limit, window), k);
      RunKeeps(requests[..n], k, limit, window, r.checkedAt);
      StepKeeps(l, b, r, k, limit, window);
      KeptLater(Booked(map[], requests, k, limit, window), BucketOf(After(map[], requests, limit, window), k),
                r.stampedAt, now, limit, window);
    }
  }

  lemma KeptLater(l: Ledger, b: Option<Bucket>, now: Time, later: Time, limit: int, window: int)
    requires Kept(l, b, now, limit, window) && now <= later
    ensures Kept(l, b, later, limit, window)
  {
  }

  // ---- Counting in an interval --------------------------------------------------------------------------

  predicate Within(a: Admission, from: Time, window: int) {
    from <= a.at <= from + window
  }

  /** If only one bucket has requests in the interval, or two with no start of the earlier one, the counts add up. */
  lemma {:induction false} CountsAddUp(admissions: seq<Admission>, from: Time, window: int, m: nat, both: bool)
    requires forall i | 0 <= i < |admissions| && Within(admissions[i], from, window) ::
               if both then admissions[i].bucket == m + 1 || (admissions[i].bucket == m && !admissions[i].first)
               else admissions[i].bucket == m
    ensures CountWithin(Times(admissions), from, window)
            <= if both then CountLater(admissions, m) + CountBucket(admissions, m + 1) else CountBucket(admissions, m)
    decreases |admissions|
  {
    if admissions != [] {
      var n := |admissions| - 1;
      CountsAddUp(admissions[..n], from, window, m, both);
      assert Times(admissions)[..n] == Times(admissions[..n]);
    }
  }

  /** The smallest bucket with a request in the interval, if any has one. */
  lemma {:induction false} FirstBucket(admissions: seq<Admission>, from: Time, window: int) returns (m: Option<nat>)
    ensures m.None? ==> forall i | 0 <= i < |admissions| :: !Within(admissions[i], from, window)
    ensures m.Some? ==> exists i :: 0 <= i < |admissions| && Within(admissions[i], from, window) && admissions[i].bucket == m.value
    ensures m.Some? ==> forall i | 0 <= i < |admissions| && Within(admissions[i], from, window) :: m.value <= admissions[i].bucket
    decreases |admissions|
  {
    if admissions == [] {
      return None;
    }
    var n := |admissions| - 1;
    m := FirstBucket(admissions[..n], from, window);
    if Within(admissions[n], from, window) && (m.None? || admissions[n].bucket < m.value) {
      m := Some(admissions[n].bucket);
    } else if m.Some? {
      var i :| 0 <= i < n && Within(admissions[..n][i], from, window) && admissions[..n][i].bucket == m.value;
      assert admissions[i].bucket == m.value && Within(admissions[i], from, window);
    }
  }

  /**
    The bound: over every run with a clock that never goes back, whatever the other keys do, no closed interval
    of one window holds 2 * limit admitted requests of a key.
   */
  lemma RateIsBounded(requests: seq<Request>, k: Key, limit: int, window: int, from: Time)
    requires limit > 0 && window > 0 && Clocked(requests)
    ensures CountWithin(Admitted(map[], requests, k, limit, window), from, window) < 2 * limit
  {
    BookedIsAdmitted(map[], requests, k, limit, window);
    var now := if requests == [] then 0 else requests[|requests| - 1].stampedAt;
    RunKeeps(requests, k, limit, window, now);
    var l := Booked(map[], requests, k, limit, window);
    hide Booked, Admitted;
    LedgerIsBounded(l, BucketOf(After(map[], requests, limit, window), k), now, limit, window, from);
  }

  lemma LedgerIsBounded(l: Ledger, b: Option<Bucket>, now: Time, limit: int, window: int, from: Time)
    requires limit > 0 && window > 0 && Kept(l, b, now, limit, window)
    ensures CountWithin(Times(l.admissions), from, window) < 2 * limit
  {
    var first := FirstBucket(l.admissions, from, window);
    if first.None? || b.None? {
      CountsAddUp(l.admissions, from, window, 0, false);
      NoneYet([], 0);
    } else {
      var m := first.value;
      var i :| 0 <= i < |l.admissions| && Within(l.admissions[i], from, window) && l.admissions[i].bucket == m;
      assert forall j | 0 <= j < |l.admissions| :: Apart(l.admissions[i], l.admissions[j], window);
      if j :| 0 <= j < |l.admissions| && Within(l.admissions[j], from, window) && l.admissions[j].bucket == m + 1 {
        assert forall f | 0 <= f < |l.admissions| :: Apart(l.admissions[f], l.admissions[j], window);
        CountsAddUp(l.admissions, from, window, m, true);
      } else {
        CountsAddUp(l.admissions, from, window, m, false);
      }
    }
  }

  /** Each bucket admits at most the limit. */
  lemma BucketIsBounded(requests: seq<Request>, k: Key, limit: int, window: int, bucket: nat)
    requires limit > 0 && window > 0 && Clocked(requests)
    ensures CountBucket(Booked(map[], requests, k, limit, window).admissions, bucket) <= limit
  {
    RunKeeps(requests, k, limit, window, if requests == [] then 0 else requests[|requests| - 1].stampedAt);
  }

  // ---- The bound is exact ---------------------------------------------------------------------------------

  function At(k: Key, t: Time): Request {
    Request(k, t, t, t)
  }

  function Burst(k: Key, t: Time, n: nat): seq<Request> {
    if n == 0 then [] else Burst(k, t, n - 1) + [At(k, t)]
  }

  ghost predicate ClockedUntil(requests: seq<Request>, t: Time) {
    Clocked(requests) && (requests != [] ==> requests[|requests| - 1].stampedAt <= t)
  }

  lemma OneMore(requests: seq<Request>, k: Key, t: Time, limit: int, window: int, from: Time)
    requires ClockedUntil(requests, t)
    ensures var b := BucketOf(After(map[], requests, limit, window), k);
            var more := requests + [At(k, t)];
            && ClockedUntil(more, t)
            && BucketOf(After(map[], more, limit, window), k) == Some(NextBucket(b, At(k, t), limit, window))
            && CountWithin(Admitted(map[], more, k, limit, window), from, window)
               == CountWithin(Admitted(map[], requests, k, limit, window), from, window)
                  + (if Admits(b, At(k, t), limit) && from <= t <= from + window then 1 else 0)
  {
    var more := requests + [At(k, t)];
    assert more[..|requests|] == requests;
    var times := Admitted(map[], requests, k, limit, window);
    assert (times + [t])[..|times|] == times;
    assert times + [] == times;
    assert Clocked(more) by {
      assert forall i | 0 <= i < |requests| :: requests[i].stampedAt <= requests[|requests| - 1].stampedAt;
    }
  }

  lemma {:induction false} BurstFills(requests: seq<Request>, k: Key, t: Time, n: nat, limit: int, window: int, from: Time)
    requires ClockedUntil(requests, t)
    requires var b := BucketOf(After(map[], requests, limit, window), k);
             b.Some? && t <= b.value.resetAt && b.value.count + n <= limit
    ensures var b := BucketOf(After(map[], requests, limit, window), k).value;
            var all := requests + Burst(k, t, n);
            && ClockedUntil(all, t)
            && BucketOf(After(map[], all, limit, window), k) == Some(b.(count := b.count + n))
            && CountWithin(Admitted(map[], all, k, limit, window), from, window)
               == CountWithin(Admitted(map[], requests, k, limit, window), from, window) + (if from <= t <= from + window then n else 0)
    decreases n
  {
    hide ClockedUntil, After, Admitted, CountWithin, BucketOf;
    if n == 0 {
      assert requests + Burst(k, t, n) == requests;
    } else {
      BurstFills(requests, k, t, n - 1, limit, window, from);
      OneMore(requests + Burst(k, t, n - 1), k, t, limit, window, from);
      assert requests + Burst(k, t, n) == (requests + Burst(k, t, n - 1)) + [At(k, t)];
    }
  }

  /** For every limit and window some run does admit 2 * limit - 1 requests of one key within one window. */
  lemma BoundIsReached(k: Key, limit: int, window: int) returns (requests: seq<Request>, from: Time)
    requires limit > 0 && window > 0
    ensures Clocked(requests)
    ensures CountWithin(Admitted(map[], requests, k, limit, window), from, window) == 2 * limit - 1
  {
    from := 1;
    assert ClockedUntil([], 0) && After(map[], [], limit, window) == map[] && Admitted(map[], [], k, limit, window) == [];
    OneMore([], k, 0, limit, window, from);
    requests := [] + [At(k, 0)];
    assert ClockedUntil(requests, window);
    assert CountWithin(Admitted(map[], requests, k, limit, window), from, window) == 0;
    hide After, Admitted, CountWithin;
    BurstFills(requests, k, window, limit - 1, limit, window, from);
    requests := requests + Burst(k, window, limit - 1);
    assert ClockedUntil(requests, window + 1);
    OneMore(requests, k, window + 1, limit, window, from);
    requests := requests + [At(k, window + 1)];
    BurstFills(requests, k, window + 1, limit - 1, limit, window, from);
    requests := requests + Burst(k, window + 1, limit - 1);
  }
}
