/** The webhook sender (internal/alert/sender.go): backoff, and the claim, send, report protocol of one worker. */
module Senders {
  import opened MonitoringTypes
  import opened StoreTables
  import opened NotificationLifecycle
  import opened Results
  import opened StoreTransactions

  const MAX_RETRY_DELAY: int := 300 * SECOND

  function Pow2(n: nat): (r: int)
    ensures r >= 1
  {
    if n == 0 then 1 else 2 * Pow2(n - 1)
  }

  /** nextRetryDelayWithBackoff. */
  function RetryDelay(attempt: int): (delay: int)
    ensures 1_000_000_000 <= delay <= 300_000_000_000
  {
    var n := if attempt < 1 then 1 else attempt;
    var delay := SECOND * Pow2(if n - 1 < 10 then n - 1 else 10);
    if delay > MAX_RETRY_DELAY then MAX_RETRY_DELAY else delay
  }

  lemma {:induction false} Pow2Grows(a: nat, b: nat)
    requires a <= b
    ensures Pow2(a) <= Pow2(b)
    decreases b
  {
    if a < b {
      Pow2Grows(a, b - 1);
    }
  }

  /** One second at first, then doubling up to the cap: the shift's own bound never cuts it short. */
  lemma RetryDelayDoubles(attempt: int)
    ensures attempt <= 1 ==> RetryDelay(attempt) == 1_000_000_000
    ensures attempt >= 1 ==>
              RetryDelay(attempt + 1) == if 2 * RetryDelay(attempt) > 300_000_000_000 then 300_000_000_000 else 2 * RetryDelay(attempt)
  {
    assert Pow2(9) == 512 by {
      assert Pow2(4) == 16;
      assert Pow2(8) == 256;
    }
    if attempt >= 10 {
      Pow2Grows(9, if attempt - 1 < 10 then attempt - 1 else 10);
    }
  }

  lemma {:induction false} RetryDelayGrows(a: int, b: int)
    requires a <= b
    ensures RetryDelay(a) <= RetryDelay(b)
    decreases b - a
  {
    if a < b {
      RetryDelayGrows(a, b - 1);
      RetryDelayDoubles(b - 1);
      RetryDelayDoubles(b);
    }
  }

  // ---- No stranded work ---------------------------------------------------------------------------

  /** A transaction at time t: claims honour the lease, and a retry waits no longer than the cap. */
  predicate At(s: StoreStep, t: Time, staleAfter: int) {
    match s
    case Claim(now, staleBefore, _) => now == t && staleBefore == t - staleAfter
    case Retry(_, next) => t + SECOND <= next <= t + MAX_RETRY_DELAY
    case Open(_, _, now) => now == t
    case Resolve(_, _, now) => now == t
    case _ => true
  }

  predicate Clocked(steps: seq<StoreStep>, times: seq<Time>, staleAfter: int) {
    && |times| == |steps|
    && (forall i | 0 <= i < |steps| :: At(steps[i], times[i], staleAfter))
    && (forall i, j | 0 <= i < j < |times| :: times[i] <= times[j])
  }

  predicate WaitsBriefly(n: Notification, now: Time) {
    && (n.nextAttemptAt.Some? ==> n.nextAttemptAt.value <= now + MAX_RETRY_DELAY)
    && (n.lastAttemptAt.Some? ==> n.lastAttemptAt.value <= now)
  }

  ghost predicate AllWaitBriefly(db: Db, now: Time) {
    forall k | 0 <= k < |db.notifications| :: WaitsBriefly(db.notifications[k], now)
  }

  lemma StepWaitsBriefly(db: Db, s: StoreStep, before: Time, t: Time, staleAfter: int)
    requires AllWaitBriefly(db, before) && before <= t && At(s, t, staleAfter)
    ensures AllWaitBriefly(Apply(db, s), t)
  {
    assert forall k | 0 <= k < |db.notifications| :: WaitsBriefly(db.notifications[k], t);
  }

  lemma {:induction false} RunWaitsBriefly(db: Db, steps: seq<StoreStep>, times: seq<Time>, before: Time, staleAfter: int)
    requires DbOk(db) && AllWaitBriefly(db, before) && Clocked(steps, times, staleAfter)
    requires times != [] ==> before <= times[0]
    ensures DbOk(ApplyAll(db, steps))
    ensures AllWaitBriefly(ApplyAll(db, steps), if times == [] then before else times[|times| - 1])
    decreases |steps|
  {
    if steps != [] {
      StepKeepsOk(db, steps[0]);
      StepWaitsBriefly(db, steps[0], before, times[0], staleAfter);
      assert Clocked(steps[1..], times[1..], staleAfter) by {
        assert forall i | 0 <= i < |steps[1..]| :: steps[1..][i] == steps[i + 1] && times[1..][i] == times[i + 1];
      }
      RunWaitsBriefly(Apply(db, steps[0]), steps[1..], times[1..], times[0], staleAfter);
    }
  }

  /**
    No stranded work: after every clocked run, and whatever workers died in it, every unfinished
    notification is due once five minutes and the lease have passed since the last transaction.
   */
  lemma NoStrandedWork(steps: seq<StoreStep>, times: seq<Time>, staleAfter: int, k: nat, now: Time)
    requires steps != [] && Clocked(steps, times, staleAfter)
    requires k < |ApplyAll(EMPTY_DB, steps).notifications|
    requires !Terminal(ApplyAll(EMPTY_DB, steps).notifications[k].state)
    requires now >= times[|times| - 1] + MAX_RETRY_DELAY && now >= times[|times| - 1] + staleAfter
    ensures Due(ApplyAll(EMPTY_DB, steps), k, now, now - staleAfter)
  {
    RunWaitsBriefly(EMPTY_DB, steps, times, times[0], staleAfter);
    assert WaitsBriefly(ApplyAll(EMPTY_DB, steps).notifications[k], times[|times| - 1]);
    UnfinishedIsDue(ApplyAll(EMPTY_DB, steps), k, now, staleAfter);
  }

  // ---- One worker -----------------------------------------------------------------------------------

  /** One attempt: whether the webhook accepted it, when, and whether the report reached the store. */
  datatype Outcome = Outcome(sent: bool, at: Time, recorded: bool)

  datatype BatchResult = Idle | Processed | Stopped

  function Report(job: Job, o: Outcome): seq<StoreStep> {
    if !o.recorded then [] else if o.sent then [Deliver(job.id, o.at)] else [Retry(job.id, o.at + RetryDelay(job.attempts))]
  }

  /** The transactions of a dispatched batch, with whatever others commit before each report. */
  function Dispatches(jobs: seq<Job>, outcomes: nat -> Outcome, others: nat -> seq<StoreStep>): seq<StoreStep> {
    if jobs == [] then []
    else
      var n := |jobs| - 1;
      Dispatches(jobs[..n], outcomes, others) + (others(n) + Report(jobs[n], outcomes(n)))
  }

  /**
    A report is at most one transaction of the protocol: at its own time, on the claimed row only, with a bounded wait,
    and it says whether the send was accepted.
   */
  lemma ReportIsAt(job: Job, o: Outcome, staleAfter: int)
    ensures |Report(job, o)| == if o.recorded then 1 else 0
    ensures forall s | s in Report(job, o) ::
              At(s, o.at, staleAfter) && (o.sent ==> s.Deliver? && s.id == job.id) && (!o.sent ==> s.Retry? && s.id == job.id)
    ensures forall s, k | s in Report(job, o) && k != job.id :: LeavesAlone(s, k, staleAfter)
  {
  }

  /**
    What one attempt makes of its row: an accepted send ends it as delivered, a failed one lets it wait for the backoff.
    A row that is superseded meanwhile stays so, and so does a failed down alert once its incident is over.
   */
  predicate Settles(n: Notification, incidentOver: bool, attempts: nat, o: Outcome, n': Notification) {
    if !o.recorded || n.state == Delivered then n' == n
    else if n.state == Superseded then n' == n.(nextAttemptAt := n'.nextAttemptAt)
    else if o.sent then
      n' == if n.state == Processing then n.(state := Delivered, deliveredAt := Some(o.at), nextAttemptAt := None) else n
    else if n.event == DownEvent && incidentOver then n' == n.(state := Superseded, nextAttemptAt := None)
    else n' == n.(state := Retrying, nextAttemptAt := Some(o.at + RetryDelay(attempts)))
  }

  /** A report settles its own row and touches nothing else. */
  lemma ReportSettles(db: Db, job: Job, o: Outcome, n: Notification, i: Incident)
    requires RowIs(db, job.id, n, i)
    ensures var db' := ApplyAll(db, Report(job, o));
            && db' == db.(notifications := db'.notifications) && |db'.notifications| == |db.notifications|
            && (forall k | 0 <= k < |db.notifications| && k != job.id :: db'.notifications[k] == db.notifications[k])
            && RowIs(db', job.id, db'.notifications[job.id], i)
            && Settles(n, i.resolvedAt.Some?, job.attempts, o, db'.notifications[job.id])
  {
    if o.recorded {
      assert ApplyAll(db, Report(job, o)) == Apply(db, Report(job, o)[0]);
    }
  }

  /** Other transactions, up to the given report, that do not concern row k. */
  predicate Undisturbed(others: nat -> seq<StoreStep>, done: nat, k: nat, c: CheckId) {
    forall m: nat, s | m < done && s in others(m) :: Spares(s, k, c)
  }

  lemma {:induction false} BeforeItsReport(db: Db, jobs: seq<Job>, outcomes: nat -> Outcome, others: nat -> seq<StoreStep>,
                                           k: nat, n: Notification, i: Incident)
    requires RowIs(db, k, n, i) && Undisturbed(others, |jobs|, k, i.check) && forall j | 0 <= j < |jobs| :: jobs[j].id != k
    ensures RowIs(ApplyAll(db, Dispatches(jobs, outcomes, others)), k, n, i)
    decreases |jobs|
  {
    hide Apply, ApplyAll, RowIs, Report;
    NothingDispatched(db, outcomes, others);
    if jobs != [] {
      var m := |jobs| - 1;
      BeforeItsReport(db, jobs[..m], outcomes, others, k, n, i);
      DispatchNext(db, jobs, outcomes, others);
      var db1 := ApplyAll(db, Dispatches(jobs[..m], outcomes, others));
      StepsSpareRow(db1, others(m), k, n, i);
      ReportSpares(jobs[m], outcomes(m), k, i.check);
      StepsSpareRow(ApplyAll(db1, others(m)), Report(jobs[m], outcomes(m)), k, n, i);
    }
  }

  lemma ReportSpares(job: Job, o: Outcome, k: nat, c: CheckId)
    requires job.id != k
    ensures forall s | s in Report(job, o) :: Spares(s, k, c)
  {
  }

  /** Each dispatched job settles its row, wherever in the batch it stands. */
  lemma {:induction false} BatchSettles(db: Db, jobs: seq<Job>, outcomes: nat -> Outcome, others: nat -> seq<StoreStep>,
                                        j: nat, n: Notification, i: Incident) returns (n': Notification)
    requires j < |jobs| && RowIs(db, jobs[j].id, n, i) && Undisturbed(others, |jobs|, jobs[j].id, i.check)
    requires forall l, m | 0 <= l < m < |jobs| :: jobs[l].id != jobs[m].id
    ensures RowIs(ApplyAll(db, Dispatches(jobs, outcomes, others)), jobs[j].id, n', i)
    ensures Settles(n, i.resolvedAt.Some?, jobs[j].attempts, outcomes(j), n')
    decreases |jobs|
  {
    hide Apply, ApplyAll, RowIs, Report, Settles;
    var m, k := |jobs| - 1, jobs[j].id;
    DispatchNext(db, jobs, outcomes, others);
    var db1 := ApplyAll(db, Dispatches(jobs[..m], outcomes, others));
    if j == m {
      BeforeItsReport(db, jobs[..m], outcomes, others, k, n, i);
      StepsSpareRow(db1, others(m), k, n, i);
      ReportSettles(ApplyAll(db1, others(m)), jobs[m], outcomes(m), n, i);
      n' := ApplyAll(ApplyAll(db1, others(m)), Report(jobs[m], outcomes(m))).notifications[k];
    } else {
      n' := BatchSettles(db, jobs[..m], outcomes, others, j, n, i);
      StepsSpareRow(db1, others(m), k, n', i);
      ReportSpares(jobs[m], outcomes(m), k, i.check);
      StepsSpareRow(ApplyAll(db1, others(m)), Report(jobs[m], outcomes(m)), k, n', i);
    }
  }

  /** What a batch makes of a claimed row that no other transaction concerns: one more attempt, and its end or its wait. */
  predicate Attempted(n: Notification, now: Time, o: Outcome, n': Notification) {
    && n'.incident == n.incident && n'.event == n.event && n'.payload == n.payload
    && n'.attempts == n.attempts + 1 && n'.lastAttemptAt == Some(now)
    && if !o.recorded then n'.state == Processing
       else if o.sent then n'.state == Delivered && n'.deliveredAt == Some(o.at) && n'.nextAttemptAt == None
       else n'.state == Retrying && n'.nextAttemptAt == Some(o.at + RetryDelay(n.attempts + 1))
  }

  /** Every dispatched job of a batch has had its attempt. */
  ghost predicate AllAttempted(db: Db, now: Time, jobs: seq<Job>, outcomes: nat -> Outcome, others: nat -> seq<StoreStep>, db': Db) {
    forall j | 0 <= j < |jobs| ::
      var k := jobs[j].id;
      && k < |db.notifications| && db.notifications[k].incident < |db.incidents|
      && (Undisturbed(others, |jobs|, k, db.incidents[db.notifications[k].incident].check) ==>
            k < |db'.notifications| && Attempted(db.notifications[k], now, outcomes(j), db'.notifications[k]))
  }

  /** The claimed rows of a fair claim, and what their workers are told. */
  ghost predicate ClaimedJobs(db: Db, now: Time, staleBefore: Time, jobs: seq<Job>) {
    && (forall l, m | 0 <= l < m < |jobs| :: jobs[l].id != jobs[m].id)
    && forall j | 0 <= j < |jobs| ::
         && jobs[j].id < |db.notifications| && Due(db, jobs[j].id, now, staleBefore)
         && jobs[j].attempts == db.notifications[jobs[j].id].attempts + 1
  }

  lemma JobIsAttempted(db: Db, now: Time, staleBefore: Time, jobs: seq<Job>, done: nat, outcomes: nat -> Outcome,
                       others: nat -> seq<StoreStep>, j: nat)
    requires ClaimedJobs(db, now, staleBefore, jobs) && j < done <= |jobs|
    requires Undisturbed(others, done, jobs[j].id, db.incidents[db.notifications[jobs[j].id].incident].check)
    ensures var db' := ApplyAll(Claimed(db, now, staleBefore, set k | k in Ids(jobs)), Dispatches(jobs[..done], outcomes, others));
            var k := jobs[j].id;
            k < |db'.notifications| && Attempted(db.notifications[k], now, outcomes(j), db'.notifications[k])
  {
    hide ApplyAll, Dispatches, Claimed, Undisturbed, Due;
    var k, ids := jobs[j].id, set k | k in Ids(jobs);
    assert Ids(jobs)[j] == k;
    DueIsClaimed(db, now, staleBefore, ids, k);
    var n, i := db.notifications[k], db.incidents[db.notifications[k].incident];
    var n' := BatchSettles(Claimed(db, now, staleBefore, ids), jobs[..done], outcomes, others, j, ClaimOne(n, now), i);
  }

  lemma DueIsClaimed(db: Db, now: Time, staleBefore: Time, picked: set<nat>, k: nat)
    requires k in picked && k < |db.notifications| && Due(db, k, now, staleBefore)
    ensures var n := db.notifications[k];
            && n.incident < |db.incidents| && RowIs(Claimed(db, now, staleBefore, picked), k, ClaimOne(n, now), db.incidents[n.incident])
            && !(n.event == DownEvent && db.incidents[n.incident].resolvedAt.Some?)
  {
  }

  lemma FairClaimIsClaimed(db: Db, now: Time, staleBefore: Time, limit: nat, locked: set<nat>, jobs: seq<Job>)
    requires FairClaim(db, now, staleBefore, limit, locked, Ids(jobs))
    requires var claimed := Claimed(db, now, staleBefore, set k | k in Ids(jobs));
             forall j | 0 <= j < |jobs| ::
               jobs[j].id < |claimed.notifications| && jobs[j].attempts == claimed.notifications[jobs[j].id].attempts
    ensures ClaimedJobs(db, now, staleBefore, jobs)
  {
    hide Due;
    var ids := Ids(jobs);
    forall j | 0 <= j < |jobs|
      ensures jobs[j].id < |db.notifications| && Due(db, jobs[j].id, now, staleBefore)
      ensures jobs[j].attempts == db.notifications[jobs[j].id].attempts + 1
    {
      assert Free(db, ids[j], now, staleBefore, locked);
    }
    forall l, m | 0 <= l < m < |jobs| ensures jobs[l].id != jobs[m].id {
      assert Before(db.notifications, ids[l], ids[m]);
    }
  }

  lemma BatchAttempts(db: Db, now: Time, staleBefore: Time, jobs: seq<Job>, done: nat, outcomes: nat -> Outcome,
                      others: nat -> seq<StoreStep>)
    requires ClaimedJobs(db, now, staleBefore, jobs) && done <= |jobs|
    ensures AllAttempted(db, now, jobs[..done], outcomes, others,
              ApplyAll(Claimed(db, now, staleBefore, set k | k in Ids(jobs)), Dispatches(jobs[..done], outcomes, others)))
  {
    hide ApplyAll, Dispatches, Claimed, Undisturbed, Attempted;
    forall j | 0 <= j < done && Undisturbed(others, done, jobs[j].id, db.incidents[db.notifications[jobs[j].id].incident].check) {
      JobIsAttempted(db, now, staleBefore, jobs, done, outcomes, others, j);
    }
  }

  class Sender {
    var store: Store
    const staleAfter: int
    const claimBatch: int

    constructor (st: Store, staleAfter: int, claimBatch: int)
      ensures store == st && this.staleAfter == staleAfter && this.claimBatch == claimBatch
    {
      store := st;
      this.staleAfter := staleAfter;
      this.claimBatch := claimBatch;
    }

    method Dispatch(job: Job, o: Outcome)
      modifies store
      ensures store == old(store) && store.Tables() == ApplyAll(old(store.Tables()), Report(job, o))
      ensures job.id < old(|store.notifications|) && old(store.notifications)[job.id].incident < old(|store.incidents|) ==>
                && |store.notifications| == old(|store.notifications|)
                && Settles(old(store.notifications)[job.id],
                           old(store.incidents)[old(store.notifications)[job.id].incident].resolvedAt.Some?,
                           job.attempts, o, store.notifications[job.id])
    {
      if !o.recorded {
        return;
      }
      assert ApplyAll(store.Tables(), Report(job, o)) == Apply(store.Tables(), Report(job, o)[0]);
      if o.sent {
        store.MarkDelivered(job.id, o.at);
      } else {
        store.MarkRetry(job.id, o.at + RetryDelay(job.attempts));
      }
    }

    /** Transactions of other workers and of the monitoring server. */
    method Elsewhere(steps: seq<StoreStep>)
      modifies store
      ensures store == old(store) && store.Tables() == ApplyAll(old(store.Tables()), steps)
    {
      store.Restore(ApplyAll(store.Tables(), steps));
    }

    /**
      One batch of one worker, with others running in between: it is exactly a claim of the rows it may
      take followed by one report per dispatched job, in order, until the sender is stopped.
     */
    method RunBatch(now: Time, locked: set<nat>, claimOk: bool, outcomes: nat -> Outcome, others: nat -> seq<StoreStep>,
                    stopBefore: Option<nat>) returns (r: BatchResult, jobs: seq<Job>, done: nat)
      modifies store
      ensures store == old(store) && done <= |jobs|
      ensures !claimOk ==> jobs == [] && store.Tables() == old(store.Tables())
      ensures claimOk ==>
                && FairClaim(old(store.Tables()), now, now - staleAfter, if claimBatch <= 0 then 1 else claimBatch, locked, Ids(jobs))
                && store.Tables() == ApplyAll(old(store.Tables()),
                     [Claim(now, now - staleAfter, set k | k in Ids(jobs))] + Dispatches(jobs[..done], outcomes, others))
      ensures claimOk ==> AllAttempted(old(store.Tables()), now, jobs[..done], outcomes, others, store.Tables())
      ensures r == Idle <==> jobs == []
      ensures r == Stopped <==> jobs != [] && stopBefore.Some? && stopBefore.value < |jobs|
      ensures done == if r == Stopped then stopBefore.value else |jobs|
    {
      hide Apply, ApplyAll, FairClaim, Dispatches, Claimed, ClaimedJobs, AllAttempted;
      if !claimOk {
        return Idle, [], 0;
      }
      ghost var start := store.Tables();
      jobs := store.ClaimDue(now, now - staleAfter, claimBatch, locked);
      ghost var claim := Claim(now, now - staleAfter, set k | k in Ids(jobs));
      ClaimIsOneStep(start, now, now - staleAfter, set k | k in Ids(jobs));
      FairClaimIsClaimed(start, now, now - staleAfter, if claimBatch <= 0 then 1 else claimBatch, locked, jobs);
      if jobs == [] {
        NothingDispatched(store.Tables(), outcomes, others);
        assert [claim] + Dispatches(jobs[..0], outcomes, others) == [claim];
        BatchAttempts(start, now, now - staleAfter, jobs, 0, outcomes, others);
        return Idle, [], 0;
      }
      r, done := DispatchJobs(jobs, outcomes, others, stopBefore);
      BatchAttempts(start, now, now - staleAfter, jobs, done, outcomes, others);
      ApplyAllAppends(start, [claim], Dispatches(jobs[..done], outcomes, others));
    }

    method DispatchJobs(jobs: seq<Job>, outcomes: nat -> Outcome, others: nat -> seq<StoreStep>, stopBefore: Option<nat>)
      returns (r: BatchResult, done: nat)
      modifies store
      ensures store == old(store) && done <= |jobs| && r != Idle
      ensures store.Tables() == ApplyAll(old(store.Tables()), Dispatches(jobs[..done], outcomes, others))
      ensures r == Stopped <==> stopBefore.Some? && stopBefore.value < |jobs|
      ensures done == if r == Stopped then stopBefore.value else |jobs|
    {
      hide Apply, ApplyAll, Dispatches, Store.Tables;
      ghost var start := store.Tables();
      done := 0;
      NothingDispatched(start, outcomes, others);
      while done < |jobs|
        invariant done <= |jobs| && (stopBefore.Some? ==> done <= stopBefore.value)
        invariant store == old(store)
        invariant store.Tables() == ApplyAll(start, Dispatches(jobs[..done], outcomes, others))
      {
        if stopBefore == Some(done) {
          return Stopped, done;
        }
        DispatchNext(start, jobs[..done + 1], outcomes, others);
        assert jobs[..done + 1][..done] == jobs[..done];
        Elsewhere(others(done));
        Dispatch(jobs[done], outcomes(done));
        done := done + 1;
      }
      r := Processed;
    }
  }

  lemma ClaimIsOneStep(db: Db, now: Time, staleBefore: Time, picked: set<nat>)
    ensures ApplyAll(db, [Claim(now, staleBefore, picked)]) == Claimed(db, now, staleBefore, picked)
  {
    assert [Claim(now, staleBefore, picked)][1..] == [];
    assert ApplyAll(db, [Claim(now, staleBefore, picked)]) == ApplyAll(Apply(db, Claim(now, staleBefore, picked)), []);
  }

  lemma NothingDispatched(db: Db, outcomes: nat -> Outcome, others: nat -> seq<StoreStep>)
    ensures Dispatches([], outcomes, others) == [] && ApplyAll(db, []) == db
  {
  }

  lemma DispatchNext(db: Db, jobs: seq<Job>, outcomes: nat -> Outcome, others: nat -> seq<StoreStep>)
    requires jobs != []
    ensures var n := |jobs| - 1;
            ApplyAll(db, Dispatches(jobs, outcomes, others))
            == ApplyAll(ApplyAll(ApplyAll(db, Dispatches(jobs[..n], outcomes, others)), others(n)), Report(jobs[n], outcomes(n)))
  {
    hide Apply;
    var n := |jobs| - 1;
    var prefix := Dispatches(jobs[..n], outcomes, others);
    ApplyAllAppends(db, prefix, others(n) + Report(jobs[n], outcomes(n)));
    ApplyAllAppends(ApplyAll(db, prefix), others(n), Report(jobs[n], outcomes(n)));
  }
}
