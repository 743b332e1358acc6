/**
  The probe's result batcher (cmd/wacht-probe/result_batcher.go): a bounded FIFO with one flusher. The lock
  is free while a batch is posted, and any number of results may be enqueued meanwhile.
 */
module ResultBatching {

  /** Where every accepted result is now, by the order of its acceptance. */
  datatype Ledger = Ledger(accepted: nat, posted: seq<nat>, inFlight: seq<nat>, pending: seq<nat>, dropped: set<nat>)

  const EMPTY_LEDGER := Ledger(0, [], [], [], {})

  ghost predicate Increasing(s: seq<nat>) {
    forall i, j | 0 <= i < j < |s| :: s[i] < s[j]
  }

  ghost function Kept(l: Ledger): seq<nat> {
    l.posted + l.inFlight + l.pending
  }

  /**
    Every accepted result is posted, in flight, pending or dropped, in exactly one of these ways, and what
    is not dropped is in the order of acceptance: first what is posted, then in flight, then pending.
   */
  ghost predicate Conserved(l: Ledger) {
    && Increasing(Kept(l))
    && (forall i: nat :: i < l.accepted <==> i in Kept(l) || i in l.dropped)
    && (forall i | i in Kept(l) :: i !in l.dropped)
  }

  function Enqueued(l: Ledger): Ledger {
    l.(accepted := l.accepted + 1, pending := l.pending + [l.accepted])
  }

  function Trimmed(l: Ledger, n: nat): Ledger
    requires n <= |l.pending|
  {
    l.(pending := l.pending[n..], dropped := l.dropped + set i | i in l.pending[..n])
  }

  function Taken(l: Ledger, n: nat): Ledger
    requires n <= |l.pending|
  {
    l.(inFlight := l.pending[..n], pending := l.pending[n..])
  }

  function Requeued(l: Ledger): Ledger {
    l.(inFlight := [], pending := l.inFlight + l.pending)
  }

  function Posted(l: Ledger): Ledger {
    l.(posted := l.posted + l.inFlight, inFlight := [])
  }

  function Refused(l: Ledger): Ledger {
    l.(inFlight := [], dropped := l.dropped + set i | i in l.inFlight)
  }

  lemma EnqueueConserves(l: Ledger)
    requires Conserved(l)
    ensures Conserved(Enqueued(l))
  {
    assert Kept(Enqueued(l)) == Kept(l) + [l.accepted];
    assert forall i | 0 <= i < |Kept(l)| :: Kept(l)[i] in Kept(l);
  }

  lemma CutOut(s: seq<nat>, a: nat, b: nat)
    requires Increasing(s) && a <= b <= |s|
    ensures Increasing(s[..a] + s[b..])
    ensures forall x | x in s[..a] + s[b..] :: x !in s[a..b]
  {
    var rest := s[..a] + s[b..];
    assert forall j | 0 <= j < |rest| :: rest[j] == s[if j < a then j else j - a + b];
    assert forall k | 0 <= k < b - a :: s[a..b][k] == s[a + k];
  }

  lemma CutCovers(s: seq<nat>, a: nat, b: nat, x: nat)
    requires a <= b <= |s|
    ensures x in s <==> x in s[..a] + s[b..] || x in s[a..b]
  {
    assert s == s[..a] + s[a..b] + s[b..];
  }

  /** Dropping a stretch of what is kept, from position a up to b. */
  lemma DropConserves(l: Ledger, l': Ledger, a: nat, b: nat)
    requires Conserved(l) && a <= b <= |Kept(l)| && l'.accepted == l.accepted
    requires Kept(l') == Kept(l)[..a] + Kept(l)[b..]
    requires l'.dropped == l.dropped + set i | i in Kept(l)[a..b]
    ensures Conserved(l')
  {
    CutOut(Kept(l), a, b);
    forall x: nat ensures x in Kept(l) <==> x in Kept(l') || x in Kept(l)[a..b] {
      CutCovers(Kept(l), a, b, x);
    }
    hide Kept, Increasing;
  }

  lemma TrimConserves(l: Ledger, n: nat)
    requires Conserved(l) && n <= |l.pending|
    ensures Conserved(Trimmed(l, n))
  {
    var a := |l.posted| + |l.inFlight|;
    assert Kept(l)[a..a + n] == l.pending[..n];
    assert Kept(Trimmed(l, n)) == Kept(l)[..a] + Kept(l)[a + n..];
    DropConserves(l, Trimmed(l, n), a, a + n);
  }

  lemma RefuseConserves(l: Ledger)
    requires Conserved(l)
    ensures Conserved(Refused(l))
  {
    var a, b := |l.posted|, |l.posted| + |l.inFlight|;
    assert Kept(l)[a..b] == l.inFlight;
    assert Kept(Refused(l)) == Kept(l)[..a] + Kept(l)[b..];
    DropConserves(l, Refused(l), a, b);
  }

  /** Taking, requeueing and posting move results without reordering them. */
  lemma MovesConserve(l: Ledger, n: nat)
    requires Conserved(l)
    ensures n <= |l.pending| && l.inFlight == [] ==> Conserved(Taken(l, n))
    ensures Conserved(Requeued(l)) && Conserved(Posted(l))
  {
    assert Kept(Requeued(l)) == Kept(l);
    assert Kept(Posted(l)) == Kept(l);
    if n <= |l.pending| && l.inFlight == [] {
      assert l.pending == l.pending[..n] + l.pending[n..];
      assert Kept(Taken(l, n)) == Kept(l);
    }
  }

  /** Once nothing is dropped and nothing waits, every accepted result was posted once, in order. */
  lemma NothingLost(l: Ledger)
    requires Conserved(l) && l.dropped == {} && l.inFlight == [] && l.pending == []
    ensures l.posted == seq(l.accepted, i => i)
  {
    assert Kept(l) == l.posted;
    IncreasingIsIdentity(l.posted, l.accepted);
  }

  /** The sequence lists exactly the numbers below n. */
  ghost predicate Covers(s: seq<nat>, n: nat) {
    forall i: nat :: i < n <==> i in s
  }

  lemma LastIsLargest(s: seq<nat>, n: nat)
    requires Increasing(s) && Covers(s, n) && s != []
    ensures n > 0 && s[|s| - 1] == n - 1 && Covers(s[..|s| - 1], n - 1)
  {
    var k := |s| - 1;
    assert s[k] in s;
    var m: nat := n - 1;
    assert m in s;
    var j :| 0 <= j < |s| && s[j] == m;
    assert s[j] <= s[k];
    assert s == s[..k] + [m];
    forall i: nat ensures i < m <==> i in s[..k] {
      assert i in s <==> i in s[..k] || i == m;
      assert m !in s[..k];
    }
  }

  lemma {:induction false} IncreasingIsIdentity(s: seq<nat>, n: nat)
    requires Increasing(s) && Covers(s, n)
    ensures s == seq(n, i => i)
    decreases |s|
  {
    if s == [] {
      assert n == 0 || 0 in s;
    } else {
      LastIsLargest(s, n);
      var k := |s| - 1;
      IncreasingIsIdentity(s[..k], n - 1);
      assert s == s[..k] + [n - 1];
    }
  }

  /** The newest results that fit a bound. */
  function Newest<R>(results: seq<R>, bound: nat): (r: seq<R>)
    ensures |r| == if |results| > bound then bound else |results|
  {
    if |results| > bound then results[|results| - bound..] else results
  }

  lemma NewestFits<R>(results: seq<R>, bound: nat)
    requires |results| <= bound
    ensures Newest(results, bound) == results
  {
  }

  lemma DropDrop<R>(s: seq<R>, i: nat, j: nat)
    requires i + j <= |s|
    ensures s[i..][j..] == s[i + j..]
  {
  }

  lemma DropConcat<R>(s: seq<R>, t: seq<R>, i: nat)
    requires i <= |s|
    ensures s[i..] + t == (s + t)[i..]
  {
  }

  lemma NewestOfSuffix<R>(all: seq<R>, cut: nat, bound: nat)
    requires cut + bound <= |all|
    ensures Newest(all[cut..], bound) == Newest(all, bound)
  {
    if cut + bound < |all| {
      DropDrop(all, cut, |all| - cut - bound);
    }
  }

  /** Trimming after each arrival is trimming once. */
  lemma NewestAgain<R>(results: seq<R>, more: seq<R>, bound: nat)
    ensures Newest(Newest(results, bound) + more, bound) == Newest(results + more, bound)
  {
    if |results| > bound {
      var cut := |results| - bound;
      DropConcat(results, more, cut);
      NewestOfSuffix(results + more, cut, bound);
    }
  }

  lemma PostShifts<R>(posted: seq<R>, pending: seq<R>, n: nat)
    requires n <= |pending|
    ensures (posted + pending[..n]) + pending[n..] == posted + pending
  {
    assert pending == pending[..n] + pending[n..];
  }

  // ---- The batcher --------------------------------------------------------------------------------

  const DEFAULT_BATCH_SIZE := 64
  const PENDING_BATCHES := 16

  /** 64-bit machine integers. */
  function Wrapped(x: int): int {
    (x + 0x8000_0000_0000_0000) % 0x1_0000_0000_0000_0000 - 0x8000_0000_0000_0000
  }

  /** What became of a post: accepted, failed in a way worth retrying, or failed for good. */
  datatype PostOutcome = Accepted | Retryable | Fatal

  class ResultBatcher<R> {
    var maxBatchSize: int
    var maxPending: int
    var pending: seq<R>
    var closed: bool
    /** The one-slot wake channel holds a signal. */
    var wake: bool
    /** Every result accepted so far, and where each of them is. */
    ghost var all: seq<R>
    ghost var ledger: Ledger

    ghost predicate Valid()
      reads this
    {
      && 1 <= maxBatchSize <= maxPending
      && Conserved(ledger) && ledger.accepted == |all|
      && |pending| <= maxPending
      && Holds(pending, ledger.pending)
    }

    /** A slice holds exactly the accepted results with the given numbers. */
    ghost predicate Holds(results: seq<R>, numbers: seq<nat>)
      reads this`all
    {
      |results| == |numbers| && forall i | 0 <= i < |results| :: numbers[i] < |all| && results[i] == all[numbers[i]]
    }

    constructor (size: int)
      requires size < 0x8000_0000_0000_0000
      ensures Valid() && pending == [] && !closed && all == [] && ledger == EMPTY_LEDGER
      ensures maxBatchSize == if size <= 0 then 64 else size
      ensures 16 * maxBatchSize < 0x8000_0000_0000_0000 ==> maxPending == 16 * maxBatchSize
      ensures maxPending == if Wrapped(16 * maxBatchSize) < maxBatchSize then maxBatchSize else Wrapped(16 * maxBatchSize)
    {
      var batch := size;
      if batch <= 0 {
        batch := DEFAULT_BATCH_SIZE;
      }
      var most := Wrapped(batch * PENDING_BATCHES);
      if most < batch {
        most := batch;
      }
      maxBatchSize := batch;
      maxPending := most;
      pending := [];
      closed := false;
      wake := false;
      all := [];
      ledger := EMPTY_LEDGER;
    }

    /** Drops the oldest pending results beyond the bound, and no more. */
    method TrimPending() returns (dropped: nat)
      requires 1 <= maxPending && Conserved(ledger) && ledger.accepted == |all| && Holds(pending, ledger.pending)
      modifies this`pending, this`ledger
      ensures dropped == if old(|pending|) > maxPending then old(|pending|) - maxPending else 0
      ensures pending == old(pending)[dropped..] && ledger == Trimmed(old(ledger), dropped)
      ensures Conserved(ledger) && Holds(pending, ledger.pending)
    {
      TrimConserves(ledger, 0);
      assert ledger == Trimmed(ledger, 0);
      if maxPending <= 0 || |pending| <= maxPending {
        return 0;
      }
      dropped := |pending| - maxPending;
      TrimConserves(ledger, dropped);
      ledger := Trimmed(ledger, dropped);
      pending := pending[dropped..];
    }

    /** Accepts a result unless closed; a full batch wakes the flusher. */
    method Enqueue(result: R) returns (dropped: nat)
      requires Valid()
      modifies this`pending, this`ledger, this`all, this`wake
      ensures Valid() && ledger.posted == old(ledger).posted && ledger.inFlight == old(ledger).inFlight
      ensures closed ==> pending == old(pending) && ledger == old(ledger) && all == old(all) && wake == old(wake)
      ensures !closed ==>
                && all == old(all) + [result] && dropped <= 1
                && pending == Newest(old(pending) + [result], maxPending) && (dropped == 1 <==> old(|pending|) == maxPending)
                && ledger == Trimmed(Enqueued(old(ledger)), dropped)
                && wake == (old(wake) || |pending| >= maxBatchSize)
    {
      hide Conserved;
      dropped := 0;
      if closed {
        return;
      }
      EnqueueConserves(ledger);
      ledger := Enqueued(ledger);
      all := all + [result];
      pending := pending + [result];
      dropped := TrimPending();
      if |pending| >= maxBatchSize {
        wake := true;
      }
    }

    method TakeBatch() returns (batch: seq<R>)
      requires Valid() && ledger.inFlight == []
      modifies this`pending, this`ledger
      ensures Valid() && old(pending) == batch + pending
      ensures |batch| == if old(|pending|) > maxBatchSize then maxBatchSize else old(|pending|)
      ensures ledger == Taken(old(ledger), |batch|) && Holds(batch, ledger.inFlight)
    {
      hide Conserved;
      MovesConserve(ledger, 0);
      assert ledger.pending[..0] == [] && ledger.pending[0..] == ledger.pending;
      assert ledger == Taken(ledger, 0);
      if |pending| == 0 {
        return [];
      }
      var size := |pending|;
      if size > maxBatchSize {
        size := maxBatchSize;
      }
      MovesConserve(ledger, size);
      batch := pending[..size];
      pending := pending[size..];
      ledger := Taken(ledger, size);
    }

    /** Puts a failed batch back in front of what came meanwhile, dropping the oldest beyond the bound. */
    method Requeue(batch: seq<R>) returns (dropped: nat)
      requires Valid() && Holds(batch, ledger.inFlight)
      modifies this`pending, this`ledger
      ensures Valid() && ledger.inFlight == []
      ensures dropped == if |batch| + old(|pending|) > maxPending then |batch| + old(|pending|) - maxPending else 0
      ensures pending == (batch + old(pending))[dropped..] && ledger == Trimmed(Requeued(old(ledger)), dropped)
    {
      hide Conserved;
      MovesConserve(ledger, 0);
      ledger := Requeued(ledger);
      pending := batch + pending;
      dropped := TrimPending();
    }

    /** Results that other goroutines enqueue while the lock is free. */
    method EnqueueAll(arrivals: seq<R>)
      requires Valid()
      modifies this`pending, this`ledger, this`all, this`wake
      ensures Valid() && ledger.posted == old(ledger).posted && ledger.inFlight == old(ledger).inFlight
      ensures old(all) <= all
      ensures closed ==> pending == old(pending) && ledger == old(ledger) && all == old(all)
      ensures !closed ==> pending == Newest(old(pending) + arrivals, maxPending) && all == old(all) + arrivals
      ensures wake || |pending| < maxBatchSize || arrivals == [] || closed
    {
      hide Conserved, Newest, Trimmed, Enqueued;
      assert old(pending) + arrivals[..0] == old(pending) && old(all) + arrivals[..0] == old(all);
      NewestFits(old(pending), maxPending);
      for i := 0 to |arrivals|
        invariant Valid() && ledger.posted == old(ledger).posted && ledger.inFlight == old(ledger).inFlight
        invariant old(all) <= all
        invariant closed ==> pending == old(pending) && ledger == old(ledger) && all == old(all)
        invariant !closed ==> pending == Newest(old(pending) + arrivals[..i], maxPending) && all == old(all) + arrivals[..i]
        invariant wake || |pending| < maxBatchSize || i == 0 || closed
      {
        NewestAgain(old(pending) + arrivals[..i], [arrivals[i]], maxPending);
        assert old(pending) + arrivals[..i + 1] == old(pending) + arrivals[..i] + [arrivals[i]];
        assert old(all) + arrivals[..i + 1] == old(all) + arrivals[..i] + [arrivals[i]];
        var _ := Enqueue(arrivals[i]);
      }
      assert arrivals[..|arrivals|] == arrivals;
    }

    method MarkClosed()
      requires Valid()
      modifies this`closed
      ensures Valid() && closed
    {
      closed := true;
    }

    /** Settles the batch in flight; unless it is to be retried, a batch that is full by now is signalled. */
    method Settle(batch: seq<R>, outcome: PostOutcome) returns (flushed: bool)
      requires Valid() && Holds(batch, ledger.inFlight) && |batch| <= maxPending
      modifies this`pending, this`ledger, this`wake
      ensures Valid() && ledger.inFlight == [] && flushed == (outcome != Retryable)
      ensures outcome == Accepted ==> ledger == Posted(old(ledger))
      ensures outcome == Fatal ==> ledger == Refused(old(ledger))
      ensures flushed ==> pending == old(pending) && (|pending| >= maxBatchSize ==> wake)
      ensures var extra := |batch| + old(|pending|) - maxPending;
              var dropped := if extra > 0 then extra else 0;
              !flushed ==> pending == Newest(batch + old(pending), maxPending) && ledger == Trimmed(Requeued(old(ledger)), dropped)
    {
      hide Conserved;
      if outcome == Retryable {
        var _ := Requeue(batch);
        return false;
      }
      MovesConserve(ledger, 0);
      RefuseConserves(ledger);
      ledger := if outcome == Accepted then Posted(ledger) else Refused(ledger);
      if |pending| >= maxBatchSize {
        wake := true;
      }
      return true;
    }

    /**
      One flush: takes the oldest batch, posts it while others enqueue or close, and settles it by the outcome. Nothing is
      lost from sight: an accepted batch is posted whole, a retryable one goes back in front of what is left and what
      came meanwhile, trimmed from the oldest, and a fatal one is dropped.
      Unless the post is to be retried, a batch that is full by then is signalled.
     */
    method FlushOne(arrivals: seq<R>, closing: bool, outcome: PostOutcome) returns (hadBatch: bool, flushed: bool)
      requires Valid() && ledger.inFlight == []
      modifies this`pending, this`ledger, this`all, this`wake, this`closed
      ensures Valid() && ledger.inFlight == [] && old(all) <= all
      ensures closed == (old(closed) || (hadBatch && closing))
      ensures hadBatch == (old(|pending|) > 0) && flushed == (!hadBatch || outcome != Retryable)
      ensures var size := if old(|pending|) > maxBatchSize then maxBatchSize else old(|pending|);
              && ledger.posted == old(ledger).posted + (if outcome == Accepted then old(ledger).pending[..size] else [])
              && (outcome == Fatal ==> forall i | i in old(ledger).pending[..size] :: i in ledger.dropped)
              && (old(closed) && flushed ==> pending == old(pending)[size..] && ledger.pending == old(ledger).pending[size..])
      ensures var size := if old(|pending|) > maxBatchSize then maxBatchSize else old(|pending|);
              var left := old(pending)[size..];
              var meanwhile := if old(closed) then left else Newest(left + arrivals, maxPending);
              hadBatch ==> pending == if flushed then meanwhile else Newest(old(pending)[..size] + meanwhile, maxPending)
      ensures hadBatch && flushed && |pending| >= maxBatchSize ==> wake
    {
      hide Conserved, Newest;
      var batch := TakeBatch();
      if |batch| == 0 {
        assert old(ledger).pending[..0] == [];
        return false, true;
      }
      EnqueueAll(arrivals);
      if closing {
        MarkClosed();
      }
      flushed := Settle(batch, outcome);
      return true, flushed;
    }

    /** The shutdown flush ends, since every round that goes on shrinks what is pending; arrivals are refused by then. */
    method FlushForShutdown(arrivals: nat -> seq<R>, outcomes: nat -> PostOutcome) returns (remaining: nat)
      requires Valid() && closed && ledger.inFlight == []
      modifies this`pending, this`ledger, this`all, this`wake, this`closed
      ensures Valid() && ledger.inFlight == [] && remaining == |pending|
      ensures (forall i: nat :: outcomes(i) == Accepted) ==>
                remaining == 0 && ledger.posted == old(ledger).posted + old(ledger).pending
    {
      hide Conserved, Newest;
      var round := 0;
      ghost var start := ledger;
      while true
        invariant Valid() && closed && ledger.inFlight == []
        invariant (forall i: nat :: outcomes(i) == Accepted) ==> ledger.posted + ledger.pending == start.posted + start.pending
        decreases |pending|
      {
        ghost var before := ledger;
        var hadBatch, flushed := FlushOne(arrivals(round), true, outcomes(round));
        PostShifts(before.posted, before.pending, if |before.pending| > maxBatchSize then maxBatchSize else |before.pending|);
        if !hadBatch || !flushed {
          break;
        }
        round := round + 1;
      }
      remaining := |pending|;
    }
  }
}
