/**
  The store's transactions as they run (internal/store/monitoring.go, incident_notifications.go and
  DeleteCheck in store.go): statements that update rows one by one, proved against the functions on Db.
  A transaction that fails to commit leaves every table as it was.
 */
module StoreTransactions {
  import opened MonitoringTypes
  import opened StoreTables
  import opened NotificationLifecycle
  import opened Results
  import opened MonitoringRuns

  /** What a worker gets for a claimed row. */
  datatype Job = Job(id: nat, attempts: nat)

  function Ids(jobs: seq<Job>): (ids: seq<nat>)
    ensures |ids| == |jobs| && forall i | 0 <= i < |jobs| :: ids[i] == jobs[i].id
  {
    if jobs == [] then [] else Ids(jobs[..|jobs| - 1]) + [jobs[|jobs| - 1].id]
  }

  /** The writes of a batch are all accepted before any is applied. */
  predicate Valid(writes: seq<MonitoringWrite>, now: Time) {
    forall i | 0 <= i < |writes| :: Normalized(writes[i].row, now).Some?
  }

  // ---- Which rows a claim takes -------------------------------------------------------------------

  /** The order of a claim: by next attempt, rows without one last, then by ID. */
  predicate Before(ns: seq<Notification>, j: nat, k: nat)
    requires j < |ns| && k < |ns|
  {
    match (ns[j].nextAttemptAt, ns[k].nextAttemptAt)
    case (Some(a), Some(b)) => a < b || (a == b && j < k)
    case (Some(_), None) => true
    case (None, Some(_)) => false
    case (None, None) => j < k
  }

  /** Rows a claim may take: due, and not locked by another transaction. */
  predicate Free(db: Db, k: nat, now: Time, staleBefore: Time, locked: set<nat>) {
    k < |db.notifications| && k !in locked && Due(db, k, now, staleBefore)
  }

  /**
    A claim is fair: it takes free rows in order, no row twice, no more than the limit, and it passes over
    a free row only if it took the full limit of rows that all come before it.
   */
  ghost predicate FairClaim(db: Db, now: Time, staleBefore: Time, limit: nat, locked: set<nat>, picked: seq<nat>) {
    && |picked| <= limit
    && (forall i | 0 <= i < |picked| :: Free(db, picked[i], now, staleBefore, locked))
    && (forall i, j | 0 <= i < j < |picked| :: Before(db.notifications, picked[i], picked[j]))
    && (forall k: nat | Free(db, k, now, staleBefore, locked) && k !in picked ::
          |picked| == limit && forall i | 0 <= i < |picked| :: Before(db.notifications, picked[i], k))
  }

  class Store {
    var checks: map<CheckId, bool>
    var probes: map<ProbeId, Option<Time>>
    var rows: map<(CheckId, ProbeId), CheckExecState>
    var incidents: seq<Incident>
    var notifications: seq<Notification>

    function Tables(): Db
      reads this
    {
      Db(checks, probes, rows, incidents, notifications)
    }

    constructor ()
      ensures Tables() == EMPTY_DB
    {
      checks := map[];
      probes := map[];
      rows := map[];
      incidents := [];
      notifications := [];
    }

    method Restore(db: Db)
      modifies this
      ensures Tables() == db
    {
      checks := db.checks;
      probes := db.probes;
      rows := db.rows;
      incidents := db.incidents;
      notifications := db.notifications;
    }

    method UpsertCheckState(w: CheckStateWrite, now: Time) returns (ok: bool)
      modifies this`rows
      ensures ok == Normalized(w, now).Some? && Tables() == Upserted(old(Tables()), w, now)
      ensures ok <==> w.check != NoCheck && w.probe != NoProbe && (w.child.lastOutcome.Some? || w.child.state == Missing)
      ensures ok ==> rows.Keys == old(rows).Keys + {(w.check, w.probe)} && rows - {(w.check, w.probe)} == old(rows) - {(w.check, w.probe)}
    {
      var row := Normalized(w, now);
      ok := row.Some?;
      if ok {
        rows := rows[(w.check, w.probe) := row.value];
      }
    }

    /** insertIncidentNotification, with the unique index on incident and event. */
    method InsertNotification(incident: nat, event: NotificationEvent, request: Option<Payload>, now: Time)
      modifies this`notifications
      ensures notifications == WithNotification(old(notifications), incident, event, request, now)
      ensures var known := exists k | 0 <= k < old(|notifications|) ::
                old(notifications)[k].incident == incident && old(notifications)[k].event == event;
              notifications == old(notifications) +
                if request.None? || known then []
                else [Notification(incident, event, request.value, NotificationState.Pending, 0, None, Some(now), None)]
    {
      if request.None? {
        return;
      }
      for k := 0 to |notifications|
        invariant forall j | 0 <= j < k :: !(notifications[j].incident == incident && notifications[j].event == event)
      {
        if notifications[k].incident == incident && notifications[k].event == event {
          return;
        }
      }
      notifications := notifications + [Notification(incident, event, request.value, NotificationState.Pending, 0, None, Some(now), None)];
    }

    /** The unresolved incident of a check. */
    method LookUpOpen(c: CheckId) returns (id: Option<nat>)
      ensures id == FindOpen(incidents, c)
    {
      id := None;
      for i := 0 to |incidents|
        invariant id == FindOpen(incidents[..i], c)
      {
        assert incidents[..i + 1][..i] == incidents[..i];
        if incidents[i].check == c && incidents[i].resolvedAt.None? {
          id := Some(i);
        }
      }
      assert incidents[..|incidents|] == incidents;
    }

    method OpenIncident(c: CheckId, request: Option<Payload>, now: Time) returns (conflict: bool)
      modifies this`incidents, this`notifications
      ensures conflict == (!Active(old(Tables()), c) || HasOpen(old(Tables()), c))
      ensures Tables() == Opened(old(Tables()), c, request, now)
      ensures !conflict && request.Some?
              && (forall k | 0 <= k < old(|notifications|) :: old(notifications)[k].incident < old(|incidents|)) ==>
                notifications == old(notifications) +
                  [Notification(old(|incidents|), DownEvent, request.value, NotificationState.Pending, 0, None, Some(now), None)]
    {
      var open := LookUpOpen(c);
      conflict := c !in checks || !checks[c] || open.Some?;
      if !conflict {
        var id := |incidents|;
        incidents := incidents + [Incident(c, now, None)];
        InsertNotification(id, DownEvent, request, now);
      }
    }

    /** Supersedes the unfinished notifications of some incidents, row by row. */
    method SupersedeRows(ids: set<nat>, events: set<NotificationEvent>)
      modifies this`notifications
      ensures notifications == SupersedeAll(old(notifications), ids, events)
    {
      ghost var before := notifications;
      for k := 0 to |notifications|
        invariant |notifications| == |before|
        invariant forall j | 0 <= j < |before| ::
                    notifications[j] == if j < k then SupersedeAll(before, ids, events)[j] else before[j]
      {
        var n := notifications[k];
        if n.incident in ids && n.event in events && n.state != Delivered && n.state != Superseded {
          notifications := notifications[k := n.(state := Superseded, nextAttemptAt := None)];
        }
      }
    }

    /** resolveIncidentWithNotificationByCheckIDTx; a row already superseded has no next attempt left to clear. */
    method ResolveIncident(c: CheckId, request: Option<Payload>, now: Time) returns (resolved: bool)
      modifies this`incidents, this`notifications
      ensures resolved == HasOpen(old(Tables()), c)
      ensures Tables() == Resolved(old(Tables()), c, request, now)
    {
      var open := LookUpOpen(c);
      resolved := open.Some?;
      if resolved {
        incidents := incidents[open.value := incidents[open.value].(resolvedAt := Some(now))];
        SupersedeRows({open.value}, {DownEvent});
        InsertNotification(open.value, UpEvent, request, now);
      }
    }

    method PersistOne(write: MonitoringWrite, now: Time) returns (ok: bool)
      modifies this
      ensures ok == Normalized(write.row, now).Some?
      ensures ok ==> Tables() == PersistWrite(old(Tables()), write, now)
    {
      ok := UpsertCheckState(write.row, now);
      if ok && write.incident.Some? {
        if write.incident.value.resolve {
          var _ := ResolveIncident(write.row.check, write.incident.value.request, now);
        } else {
          var _ := OpenIncident(write.row.check, write.incident.value.request, now);
        }
      }
    }

    /** PersistMonitoringBatch: every write in order or none, whether a row is refused or the commit fails. */
    method PersistMonitoringBatch(writes: seq<MonitoringWrite>, now: Time, commitOk: bool) returns (ok: bool)
      modifies this
      ensures ok ==> Valid(writes, now) && Tables() == PersistBatch(old(Tables()), writes, now)
      ensures !ok ==> Tables() == old(Tables())
      ensures ok == (Valid(writes, now) && (commitOk || writes == []))
    {
      hide PersistWrite;
      for i := 0 to |writes|
        invariant Valid(writes[..i], now)
      {
        if Normalized(writes[i].row, now).None? {
          return false;
        }
        assert writes[..i + 1] == writes[..i] + [writes[i]];
      }
      assert writes[..|writes|] == writes;
      if writes == [] {
        return true;
      }
      var saved := Tables();
      for i := 0 to |writes|
        invariant Tables() == PersistBatch(saved, writes[..i], now)
      {
        assert writes[..i + 1][..i] == writes[..i];
        ok := PersistOne(writes[i], now);
        assert ok;
      }
      ok := commitOk;
      if !ok {
        Restore(saved);
      }
    }

    /** updateProbeHeartbeatTx: revoked and unknown probes are not in the table, and are not added. */
    method UpdateHeartbeat(p: ProbeId, at: Time)
      modifies this
      ensures Tables() == if p in old(probes) then old(Tables()).(probes := old(probes)[p := Some(at)]) else old(Tables())
    {
      if p in probes {
        probes := probes[p := Some(at)];
      }
    }

    /** DeleteCheck: supersede, resolve, drop the rows, soft-delete. */
    method DeleteCheck(c: CheckId, now: Time, commitOk: bool) returns (deleted: bool)
      modifies this
      ensures deleted == (Active(old(Tables()), c) && commitOk)
      ensures Tables() == if deleted then Deleted(old(Tables()), c, now) else old(Tables())
      ensures deleted ==>
                && (forall p :: (c, p) !in rows) && |notifications| == old(|notifications|) && |incidents| == old(|incidents|)
                && (forall k | 0 <= k < |notifications| && Concerns(old(Tables()), old(notifications)[k], c) ::
                      Terminal(notifications[k].state))
    {
      if c !in checks || !checks[c] {
        return false;
      }
      var saved := Tables();
      var ids := set i: nat | i < |incidents| && incidents[i].check == c;
      SupersedeRows(ids, {DownEvent, UpEvent});
      for i := 0 to |incidents|
        invariant notifications == SupersedeAll(saved.notifications, ids, {DownEvent, UpEvent})
        invariant checks == saved.checks && probes == saved.probes && rows == saved.rows
        invariant |incidents| == |saved.incidents|
        invariant forall j | 0 <= j < |incidents| ::
                    incidents[j] == if j < i then ResolveAll(saved.incidents, c, now)[j] else saved.incidents[j]
      {
        if incidents[i].check == c && incidents[i].resolvedAt.None? {
          incidents := incidents[i := incidents[i].(resolvedAt := Some(now))];
        }
      }
      assert incidents == ResolveAll(saved.incidents, c, now);
      rows := map k | k in rows && k.0 != c :: rows[k];
      checks := checks[c := false];
      deleted := commitOk;
      DeletionFinishes(saved, c, now);
      if !deleted {
        Restore(saved);
      }
    }

    method MarkDelivered(id: nat, at: Time)
      modifies this`notifications
      ensures Tables() == MarkedDelivered(old(Tables()), id, at)
      ensures id < old(|notifications|) && old(notifications)[id].state == Processing ==>
                |notifications| == old(|notifications|) && notifications[id].state == Delivered && notifications[id].deliveredAt == Some(at)
    {
      if id < |notifications| && notifications[id].state == Processing {
        notifications := notifications[id := notifications[id].(state := Delivered, deliveredAt := Some(at), nextAttemptAt := None)];
      }
    }

    method MarkRetry(id: nat, nextAttemptAt: Time)
      modifies this`notifications
      ensures Tables() == MarkedRetry(old(Tables()), id, nextAttemptAt)
    {
      if id < |notifications| && notifications[id].incident < |incidents| && notifications[id].state != Delivered {
        var n := notifications[id];
        if n.state == Superseded || (n.event == DownEvent && incidents[n.incident].resolvedAt.Some?) {
          notifications := notifications[id := n.(state := Superseded, nextAttemptAt := None)];
        } else {
          notifications := notifications[id := n.(state := Retrying, nextAttemptAt := Some(nextAttemptAt))];
        }
      }
    }

    /** The first free row, in claim order, that is not picked yet. */
    method FirstFree(now: Time, staleBefore: Time, locked: set<nat>, picked: seq<nat>) returns (first: Option<nat>)
      ensures first.Some? ==> Free(Tables(), first.value, now, staleBefore, locked) && first.value !in picked
      ensures forall k: nat | Free(Tables(), k, now, staleBefore, locked) && k !in picked ::
                first.Some? && (k == first.value || Before(notifications, first.value, k))
    {
      first := None;
      for k := 0 to |notifications|
        invariant first.Some? ==> Free(Tables(), first.value, now, staleBefore, locked) && first.value !in picked && first.value < k
        invariant forall j: nat | j < k && Free(Tables(), j, now, staleBefore, locked) && j !in picked ::
                    first.Some? && (j == first.value || Before(notifications, first.value, j))
      {
        if k !in locked && k !in picked && Due(Tables(), k, now, staleBefore)
           && (first.None? || Before(notifications, k, first.value)) {
          first := Some(k);
        }
      }
    }

    /** The rows the next claim takes. */
    method PickDue(now: Time, staleBefore: Time, limit: nat, locked: set<nat>) returns (picked: seq<nat>)
      ensures FairClaim(Tables(), now, staleBefore, limit, locked, picked)
    {
      hide Due;
      picked := [];
      while |picked| < limit
        invariant |picked| <= limit
        invariant forall i | 0 <= i < |picked| :: Free(Tables(), picked[i], now, staleBefore, locked)
        invariant forall i, j | 0 <= i < j < |picked| :: Before(notifications, picked[i], picked[j])
        invariant forall k: nat, i | Free(Tables(), k, now, staleBefore, locked) && k !in picked && 0 <= i < |picked| ::
                    Before(notifications, picked[i], k)
        decreases limit - |picked|
      {
        var next := FirstFree(now, staleBefore, locked, picked);
        if next.None? {
          break;
        }
        picked := picked + [next.value];
      }
    }

    /** ClaimDueIncidentNotifications; a limit that is not positive counts as one. */
    method ClaimDue(now: Time, staleBefore: Time, limit: int, locked: set<nat>) returns (jobs: seq<Job>)
      modifies this`notifications
      ensures FairClaim(old(Tables()), now, staleBefore, if limit <= 0 then 1 else limit, locked, Ids(jobs))
      ensures Tables() == Claimed(old(Tables()), now, staleBefore, set k | k in Ids(jobs))
      ensures forall i | 0 <= i < |jobs| ::
                jobs[i].id < |notifications| && jobs[i].attempts == notifications[jobs[i].id].attempts
    {
      hide Due, Claimed;
      var picked := PickDue(now, staleBefore, if limit <= 0 then 1 else limit, locked);
      assert forall i | 0 <= i < |picked| :: Free(Tables(), picked[i], now, staleBefore, locked);
      assert forall i, j | 0 <= i < j < |picked| :: Before(notifications, picked[i], picked[j]);
      jobs := ClaimRows(now, staleBefore, picked);
      assert Ids(jobs) == picked;
    }

    method ClaimRows(now: Time, staleBefore: Time, picked: seq<nat>) returns (jobs: seq<Job>)
      requires forall i | 0 <= i < |picked| :: picked[i] < |notifications| && Due(Tables(), picked[i], now, staleBefore)
      requires forall i, j | 0 <= i < j < |picked| :: picked[i] != picked[j]
      modifies this`notifications
      ensures Tables() == Claimed(old(Tables()), now, staleBefore, set k | k in picked)
      ensures |notifications| == old(|notifications|) && |jobs| == |picked|
      ensures forall i | 0 <= i < |jobs| :: jobs[i].id == picked[i] && jobs[i].attempts == notifications[picked[i]].attempts
    {
      var before := notifications;
      jobs := [];
      for i := 0 to |picked|
        invariant |notifications| == |before| && |jobs| == i
        invariant forall k: nat | k < |before| :: notifications[k] == if k in picked[..i] then ClaimOne(before[k], now) else before[k]
        invariant forall j | 0 <= j < i :: jobs[j].id == picked[j] && jobs[j].attempts == before[picked[j]].attempts + 1
      {
        var k := picked[i];
        assert k !in picked[..i];
        notifications := notifications[k := ClaimOne(notifications[k], now)];
        jobs := jobs + [Job(k, notifications[k].attempts)];
        assert picked[..i + 1] == picked[..i] + [k];
      }
      assert picked[..|picked|] == picked;
    }
  }
}
