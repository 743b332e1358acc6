/**
  The durable notification life cycle (internal/store/incident_notifications.go and the parts of
  internal/store/monitoring.go and store.go that touch incidents), over every interleaving of
  monitoring writes, check creation and deletion, and delivery workers.
 */
module NotificationLifecycle {
  import opened MonitoringTypes
  import opened StoreTables

  /** One committed transaction. */
  datatype StoreStep =
    | Create(check: CheckId)
    | Delete(check: CheckId, now: Time)
    | SetProbes(probes: map<ProbeId, Option<Time>>)
    | Upsert(write: CheckStateWrite, now: Time)
    | Open(check: CheckId, request: Option<Payload>, now: Time)
    | Resolve(check: CheckId, request: Option<Payload>, now: Time)
    | Claim(now: Time, staleBefore: Time, picked: set<nat>)
    | Deliver(id: nat, now: Time)
    | Retry(id: nat, nextAttemptAt: Time)

  function Apply(db: Db, s: StoreStep): Db {
    match s
    case Create(c) => if c in db.checks then db else db.(checks := db.checks[c := true])
    case Delete(c, now) => Deleted(db, c, now)
    case SetProbes(probes) => db.(probes := probes)
    case Upsert(w, now) => Upserted(db, w, now)
    case Open(c, request, now) => Opened(db, c, request, now)
    case Resolve(c, request, now) => Resolved(db, c, request, now)
    case Claim(now, staleBefore, picked) => Claimed(db, now, staleBefore, picked)
    case Deliver(id, now) => MarkedDelivered(db, id, now)
    case Retry(id, nextAttemptAt) => MarkedRetry(db, id, nextAttemptAt)
  }

  function ApplyAll(db: Db, steps: seq<StoreStep>): Db
    decreases |steps|
  {
    if steps == [] then db else ApplyAll(Apply(db, steps[0]), steps[1..])
  }

  lemma {:induction false} ApplyAllAppends(db: Db, a: seq<StoreStep>, b: seq<StoreStep>)
    ensures ApplyAll(db, a + b) == ApplyAll(ApplyAll(db, a), b)
    decreases |a|
  {
    if a == [] {
      assert a + b == b;
    } else {
      assert (a + b)[1..] == a[1..] + b;
      ApplyAllAppends(Apply(db, a[0]), a[1..], b);
    }
  }

  // ---- What every transaction keeps -----------------------------------------------------------

  /** At most one unresolved incident per check, and only of active checks. */
  ghost predicate IncidentsOk(db: Db) {
    && (forall i | 0 <= i < |db.incidents| ::
          && db.incidents[i].check in db.checks
          && (db.incidents[i].resolvedAt == None ==> db.checks[db.incidents[i].check]))
    && (forall i, j | 0 <= i < j < |db.incidents| ::
          db.incidents[i].check == db.incidents[j].check ==>
            db.incidents[i].resolvedAt.Some? || db.incidents[j].resolvedAt.Some?)
  }

  /** One row's state and its timestamps agree, and a resolved incident's down alert is finished. */
  predicate RowOk(n: Notification, incidents: seq<Incident>) {
    && n.incident < |incidents|
    && (n.nextAttemptAt == None <==> Terminal(n.state))
    && (n.state == Delivered <==> n.deliveredAt.Some?)
    && (n.attempts == 0 <==> n.lastAttemptAt == None)
    && (n.state in {Processing, Delivered} ==> n.attempts > 0)
    && (n.event == UpEvent ==> incidents[n.incident].resolvedAt.Some?)
    && (n.event == DownEvent && incidents[n.incident].resolvedAt.Some? ==> Terminal(n.state))
  }

  /** At most one row per incident and event. */
  ghost predicate UniqueKeys(ns: seq<Notification>) {
    forall j, k | 0 <= j < k < |ns| :: ns[j].incident == ns[k].incident ==> ns[j].event != ns[k].event
  }

  ghost predicate NotificationsOk(db: Db) {
    && UniqueKeys(db.notifications)
    && forall k | 0 <= k < |db.notifications| :: RowOk(db.notifications[k], db.incidents)
  }

  ghost predicate DbOk(db: Db) {
    IncidentsOk(db) && NotificationsOk(db)
  }

  lemma OpenKeepsOk(db: Db, c: CheckId, request: Option<Payload>, now: Time)
    requires DbOk(db)
    ensures DbOk(Opened(db, c, request, now))
  {
    var db' := Opened(db, c, request, now);
    if db' != db {
      assert forall i | 0 <= i < |db.incidents| :: db'.incidents[i] == db.incidents[i] && !OpenAt(db.incidents, i, c);
      assert IncidentsOk(db');
      forall k | 0 <= k < |db'.notifications| ensures RowOk(db'.notifications[k], db'.incidents) {
        if k < |db.notifications| {
          assert RowOk(db.notifications[k], db.incidents);
        }
      }
    }
  }

  lemma ResolveKeepsOk(db: Db, c: CheckId, request: Option<Payload>, now: Time)
    requires DbOk(db)
    ensures DbOk(Resolved(db, c, request, now))
  {
    var db' := Resolved(db, c, request, now);
    var found := FindOpen(db.incidents, c);
    if found.Some? {
      var id := found.value;
      var superseded := SupersedeAll(db.notifications, {id}, {DownEvent});
      forall k | 0 <= k < |db'.notifications| ensures RowOk(db'.notifications[k], db'.incidents) {
        if k < |db.notifications| {
          assert RowOk(db.notifications[k], db.incidents);
          assert db'.notifications[k] == superseded[k];
        }
      }
      assert UniqueKeys(superseded);
    }
  }

  lemma DeleteKeepsOk(db: Db, c: CheckId, now: Time)
    requires DbOk(db)
    ensures DbOk(Deleted(db, c, now))
  {
    var db' := Deleted(db, c, now);
    if Active(db, c) {
      forall k | 0 <= k < |db'.notifications| ensures RowOk(db'.notifications[k], db'.incidents) {
        assert RowOk(db.notifications[k], db.incidents);
      }
    }
  }

  lemma ClaimKeepsOk(db: Db, now: Time, staleBefore: Time, picked: set<nat>)
    requires DbOk(db)
    ensures DbOk(Claimed(db, now, staleBefore, picked))
  {
    var db' := Claimed(db, now, staleBefore, picked);
    forall k | 0 <= k < |db'.notifications| ensures RowOk(db'.notifications[k], db'.incidents) {
      assert RowOk(db.notifications[k], db.incidents);
    }
  }

  lemma DeliverKeepsOk(db: Db, id: nat, at: Time)
    requires DbOk(db)
    ensures DbOk(MarkedDelivered(db, id, at))
  {
    var db' := MarkedDelivered(db, id, at);
    assert forall k | 0 <= k < |db.notifications| :: RowOk(db.notifications[k], db.incidents);
    assert NotificationsOk(db');
  }

  lemma RetryKeepsOk(db: Db, id: nat, nextAttemptAt: Time)
    requires DbOk(db)
    ensures DbOk(MarkedRetry(db, id, nextAttemptAt))
  {
    var db' := MarkedRetry(db, id, nextAttemptAt);
    assert forall k | 0 <= k < |db.notifications| :: RowOk(db.notifications[k], db.incidents);
    assert NotificationsOk(db');
  }

  /** Steps that touch neither incidents nor notifications, and take no check away. */
  lemma OtherKeepsOk(db: Db, s: StoreStep)
    requires DbOk(db) && (s.Create? || s.SetProbes? || s.Upsert?)
    ensures DbOk(Apply(db, s))
  {
    hide Normalized;
  }

  lemma StepKeepsOk(db: Db, s: StoreStep)
    requires DbOk(db)
    ensures DbOk(Apply(db, s))
  {
    hide DbOk, Opened, Resolved, Deleted, Claimed, MarkedDelivered, MarkedRetry, Upserted;
    match s
    case Open(c, request, now) => OpenKeepsOk(db, c, request, now);
    case Resolve(c, request, now) => ResolveKeepsOk(db, c, request, now);
    case Delete(c, now) => DeleteKeepsOk(db, c, now);
    case Claim(now, staleBefore, picked) => ClaimKeepsOk(db, now, staleBefore, picked);
    case Deliver(id, now) => DeliverKeepsOk(db, id, now);
    case Retry(id, next) => RetryKeepsOk(db, id, next);
    case _ => OtherKeepsOk(db, s);
  }

  // ---- Life cycles over whole runs ----------------------------------------------------------------

  /** How one notification may change over any number of transactions: delivered and superseded absorb. */
  predicate Advances(n: Notification, n': Notification) {
    && n'.incident == n.incident && n'.event == n.event && n'.payload == n.payload
    && n.attempts <= n'.attempts
    && (Terminal(n.state) ==> n'.state == n.state && n'.attempts == n.attempts && n'.deliveredAt == n.deliveredAt)
  }

  lemma StepAdvances(db: Db, s: StoreStep, k: nat)
    requires DbOk(db) && k < |db.notifications|
    ensures k < |Apply(db, s).notifications|
    ensures Advances(db.notifications[k], Apply(db, s).notifications[k])
  {
    assert RowOk(db.notifications[k], db.incidents);
  }

  /** An incident that is resolved stays so, and keeps its check. */
  lemma StepKeepsResolved(db: Db, s: StoreStep, i: nat)
    requires i < |db.incidents|
    ensures i < |Apply(db, s).incidents| && Apply(db, s).incidents[i].check == db.incidents[i].check
    ensures db.incidents[i].resolvedAt.Some? ==> Apply(db, s).incidents[i] == db.incidents[i]
  {
  }

  /**
    Over every interleaving: the tables stay consistent; a delivered or superseded notification stays
    what it is and is never attempted again; and the down alert of an incident that was resolved at the
    start is delivered or superseded ever after.
   */
  lemma {:induction false} LifecycleOfRun(db: Db, steps: seq<StoreStep>, k: nat)
    requires DbOk(db) && k < |db.notifications|
    ensures DbOk(ApplyAll(db, steps)) && k < |ApplyAll(db, steps).notifications|
    ensures Advances(db.notifications[k], ApplyAll(db, steps).notifications[k])
    ensures db.notifications[k].event == DownEvent && db.incidents[db.notifications[k].incident].resolvedAt.Some? ==>
              Terminal(ApplyAll(db, steps).notifications[k].state)
    decreases |steps|
  {
    assert RowOk(db.notifications[k], db.incidents);
    if steps != [] {
      StepKeepsOk(db, steps[0]);
      StepAdvances(db, steps[0], k);
      StepKeepsResolved(db, steps[0], db.notifications[k].incident);
      LifecycleOfRun(Apply(db, steps[0]), steps[1..], k);
    }
  }

  /** A terminal row is never due, so it is never claimed. */
  lemma TerminalIsNeverDue(db: Db, k: nat, now: Time, staleBefore: Time)
    requires k < |db.notifications| && Terminal(db.notifications[k].state)
    ensures !Due(db, k, now, staleBefore)
  {
  }

  /** No stranded work: once its wait and the lease of its last claim are over, an unfinished row is due, and stays so. */
  lemma UnfinishedIsDue(db: Db, k: nat, now: Time, staleAfter: int)
    requires DbOk(db) && k < |db.notifications| && !Terminal(db.notifications[k].state)
    requires db.notifications[k].nextAttemptAt.Some? ==> db.notifications[k].nextAttemptAt.value <= now
    requires db.notifications[k].lastAttemptAt.Some? ==> db.notifications[k].lastAttemptAt.value + staleAfter <= now
    ensures Due(db, k, now, now - staleAfter)
  {
    assert RowOk(db.notifications[k], db.incidents);
  }

  /** Steps that do not report on row k, and whose claims honour the lease. */
  predicate LeavesAlone(s: StoreStep, k: nat, staleAfter: int) {
    match s
    case Claim(now, staleBefore, _) => staleBefore == now - staleAfter
    case Deliver(id, _) => id != k
    case Retry(id, _) => id != k
    case _ => true
  }

  predicate Leased(n: Notification, since: Time) {
    Terminal(n.state) || (n.state == Processing && n.lastAttemptAt.Some? && n.lastAttemptAt.value >= since)
  }

  lemma {:induction false} LeaseLasts(db: Db, steps: seq<StoreStep>, k: nat, since: Time, staleAfter: int)
    requires k < |db.notifications| && Leased(db.notifications[k], since) && staleAfter >= 0
    requires forall i | 0 <= i < |steps| :: LeavesAlone(steps[i], k, staleAfter)
    ensures k < |ApplyAll(db, steps).notifications| && Leased(ApplyAll(db, steps).notifications[k], since)
    decreases |steps|
  {
    if steps != [] {
      assert LeavesAlone(steps[0], k, staleAfter);
      assert k < |Apply(db, steps[0]).notifications| && Leased(Apply(db, steps[0]).notifications[k], since);
      forall i | 0 <= i < |steps[1..]| ensures LeavesAlone(steps[1..][i], k, staleAfter) {
        assert steps[1..][i] == steps[i + 1];
      }
      LeaseLasts(Apply(db, steps[0]), steps[1..], k, since, staleAfter);
    }
  }

  /**
    Two workers never hold one notification at a time: after a claim at t1, whatever runs in between
    except a report on that row, the row is not due again before t1 + staleAfter.
   */
  lemma ClaimsAreExclusive(db: Db, k: nat, t1: Time, picked: set<nat>, steps: seq<StoreStep>, t2: Time, staleAfter: int)
    requires k < |db.notifications| && k in picked && staleAfter >= 0
    requires Due(db, k, t1, t1 - staleAfter)
    requires forall i | 0 <= i < |steps| :: LeavesAlone(steps[i], k, staleAfter)
    ensures var db' := ApplyAll(Claimed(db, t1, t1 - staleAfter, picked), steps);
            k < |db'.notifications| && (Due(db', k, t2, t2 - staleAfter) ==> t2 >= t1 + staleAfter)
  {
    LeaseLasts(Claimed(db, t1, t1 - staleAfter, picked), steps, k, t1, staleAfter);
  }

  /** A row that is finished or waits until a time. */
  predicate Waiting(n: Notification, until: Time) {
    Terminal(n.state) || ((n.state == NotificationState.Pending || n.state == Retrying) && n.nextAttemptAt == Some(until))
  }

  lemma {:induction false} WaitLasts(db: Db, steps: seq<StoreStep>, k: nat, until: Time, staleAfter: int)
    requires k < |db.notifications| && Waiting(db.notifications[k], until)
    requires forall i | 0 <= i < |steps| :: LeavesAlone(steps[i], k, staleAfter) && (steps[i].Claim? ==> steps[i].now < until)
    ensures k < |ApplyAll(db, steps).notifications| && Waiting(ApplyAll(db, steps).notifications[k], until)
    decreases |steps|
  {
    if steps != [] {
      var s := steps[0];
      assert LeavesAlone(s, k, staleAfter) && (s.Claim? ==> s.now < until);
      assert k < |Apply(db, s).notifications| && Waiting(Apply(db, s).notifications[k], until);
      assert forall i | 0 <= i < |steps[1..]| :: steps[1..][i] == steps[i + 1];
      WaitLasts(Apply(db, s), steps[1..], k, until, staleAfter);
    }
  }

  /**
    Backoff is honoured: a row that waits until a time is not due before it, whatever runs in between except a report on
    that row.
   */
  lemma WaitIsHonoured(db: Db, k: nat, until: Time, steps: seq<StoreStep>, now: Time, staleAfter: int)
    requires k < |db.notifications| && Waiting(db.notifications[k], until)
    requires forall i | 0 <= i < |steps| :: LeavesAlone(steps[i], k, staleAfter) && (steps[i].Claim? ==> steps[i].now < until)
    ensures var db' := ApplyAll(db, steps);
            k < |db'.notifications| && (Due(db', k, now, now - staleAfter) ==> now >= until)
  {
    WaitLasts(db, steps, k, until, staleAfter);
  }

  // ---- Rows that others leave alone ---------------------------------------------------------------------

  /** A step that does not concern row k of an incident of c: no claim of it, no report on it, no end of the incident. */
  predicate Spares(s: StoreStep, k: nat, c: CheckId) {
    match s
    case Claim(_, _, picked) => k !in picked
    case Deliver(id, _) => id != k
    case Retry(id, _) => id != k
    case Resolve(d, _, _) => d != c
    case Delete(d, _) => d != c
    case _ => true
  }

  /** Row k is n, and its incident is i. */
  predicate RowIs(db: Db, k: nat, n: Notification, i: Incident) {
    && k < |db.notifications| && db.notifications[k] == n
    && n.incident < |db.incidents| && db.incidents[n.incident] == i
  }

  lemma StepSparesRow(db: Db, s: StoreStep, k: nat, n: Notification, i: Incident)
    requires RowIs(db, k, n, i) && Spares(s, k, i.check)
    ensures RowIs(Apply(db, s), k, n, i)
  {
  }

  lemma {:induction false} StepsSpareRow(db: Db, steps: seq<StoreStep>, k: nat, n: Notification, i: Incident)
    requires RowIs(db, k, n, i) && forall s | s in steps :: Spares(s, k, i.check)
    ensures RowIs(ApplyAll(db, steps), k, n, i)
    decreases |steps|
  {
    if steps != [] {
      hide Apply, RowIs, Spares;
      StepSparesRow(db, steps[0], k, n, i);
      StepsSpareRow(Apply(db, steps[0]), steps[1..], k, n, i);
    }
  }

  // ---- Deleted checks -----------------------------------------------------------------------------------

  /** The row belongs to an incident of c. */
  predicate Concerns(db: Db, n: Notification, c: CheckId) {
    n.incident < |db.incidents| && db.incidents[n.incident].check == c
  }

  /**
    Deleting an active check leaves no state row of it, ends its incident, finishes its notifications, those of its
    earlier incidents included, and touches nothing of any other check.
   */
  lemma DeletionFinishes(db: Db, c: CheckId, now: Time)
    requires Active(db, c)
    ensures var db' := Deleted(db, c, now);
            && !Active(db', c) && (forall d | d != c :: Active(db', d) == Active(db, d)) && db'.probes == db.probes
            && (forall p :: (c, p) !in db'.rows)
            && (forall d, p | d != c :: (d, p) in db'.rows <==> (d, p) in db.rows)
            && (forall d, p | d != c && (d, p) in db.rows :: db'.rows[(d, p)] == db.rows[(d, p)])
            && |db'.incidents| == |db.incidents|
            && (forall i | 0 <= i < |db.incidents| ::
                  db'.incidents[i] == if db.incidents[i].check == c && db.incidents[i].resolvedAt == None
                                      then Incident(c, db.incidents[i].startedAt, Some(now)) else db.incidents[i])
            && |db'.notifications| == |db.notifications|
            && (forall k | 0 <= k < |db.notifications| ::
                  var n := db.notifications[k];
                  db'.notifications[k] == if Concerns(db, n, c) && n.state != Delivered && n.state != Superseded
                                          then n.(state := Superseded, nextAttemptAt := None) else n)
  {
    var ids := set i: nat | i < |db.incidents| && db.incidents[i].check == c;
    assert Deleted(db, c, now).notifications == SupersedeAll(db.notifications, ids, {DownEvent, UpEvent});
    forall k | 0 <= k < |db.notifications|
      ensures db.notifications[k].event in {DownEvent, UpEvent}
      ensures db.notifications[k].incident in ids <==> Concerns(db, db.notifications[k], c)
    {
      assert db.notifications[k].event.DownEvent? || db.notifications[k].event.UpEvent?;
    }
  }

  /** A check that is not active has no unfinished notification. */
  ghost predicate GoneAreFinished(db: Db) {
    forall k | 0 <= k < |db.notifications| && db.notifications[k].incident < |db.incidents|
               && !Active(db, db.incidents[db.notifications[k].incident].check) ::
      Terminal(db.notifications[k].state)
  }

  lemma StepKeepsGone(db: Db, s: StoreStep)
    requires DbOk(db) && GoneAreFinished(db)
    ensures GoneAreFinished(Apply(db, s))
  {
    if s.Delete? {
      DeletionKeepsGone(db, s.check, s.now);
    } else {
      var db' := Apply(db, s);
      NewRowsAreOfActive(db, s);
      hide Apply, DbOk;
      forall k | 0 <= k < |db'.notifications| && db'.notifications[k].incident < |db'.incidents|
                 && !Active(db', db'.incidents[db'.notifications[k].incident].check)
        ensures Terminal(db'.notifications[k].state)
      {
        StepAdvances(db, s, k);
      }
    }
  }

  lemma DeletionKeepsGone(db: Db, c: CheckId, now: Time)
    requires DbOk(db) && GoneAreFinished(db)
    ensures GoneAreFinished(Deleted(db, c, now))
  {
    if Active(db, c) {
      DeletionFinishes(db, c, now);
      hide Deleted;
    }
  }

  /** No other step deactivates a check, and a row is added only for an active one. */
  lemma NewRowsAreOfActive(db: Db, s: StoreStep)
    requires DbOk(db) && !s.Delete?
    ensures var db' := Apply(db, s);
            && |db.incidents| <= |db'.incidents| && |db.notifications| <= |db'.notifications|
            && (forall k | 0 <= k < |db.notifications| :: db.notifications[k].incident < |db.incidents|)
            && (forall i | 0 <= i < |db.incidents| :: db'.incidents[i].check == db.incidents[i].check)
            && (forall c | Active(db, c) :: Active(db', c))
            && (forall k | |db.notifications| <= k < |db'.notifications| ::
                  db'.notifications[k].incident < |db'.incidents| && Active(db', db'.incidents[db'.notifications[k].incident].check))
  {
    hide Normalized, Due;
    assert forall k | 0 <= k < |db.notifications| :: RowOk(db.notifications[k], db.incidents);
  }

  /** Over every interleaving: whatever was queued for a check is finished once the check is deleted, and for ever after. */
  lemma {:induction false} RunKeepsGone(db: Db, steps: seq<StoreStep>)
    requires DbOk(db) && GoneAreFinished(db)
    ensures DbOk(ApplyAll(db, steps)) && GoneAreFinished(ApplyAll(db, steps))
    decreases |steps|
  {
    if steps != [] {
      hide Apply, DbOk, GoneAreFinished;
      StepKeepsOk(db, steps[0]);
      StepKeepsGone(db, steps[0]);
      RunKeepsGone(Apply(db, steps[0]), steps[1..]);
    }
  }
}
