/**
  Which alerts are queued: exactly one when an incident opens and one when it ends, for a check with a webhook, with the
  numbers of the check's probes at that moment; and none for a check without.
 */
module Alerts {
  import opened MonitoringTypes
  import opened QuorumMachines
  import opened EvidenceTrails
  import opened StoreTables
  import opened NotificationLifecycle
  import opened Results
  import opened Sweepers
  import opened Recovery
  import opened MonitoringRuns
  import opened RunInvariants
  import opened CrashConsistency
  import opened ReportedEvidence
  import opened Agreement

  // ---- One write ------------------------------------------------------------------------------------------------

  /** The alert that goes with the beginning or the end of an incident of a check with these children. */
  function AlertOf(check: CheckDef, incident: nat, event: NotificationEvent, checks: Children, now: Time): seq<Notification> {
    if check.webhook == "" then []
    else
      var down := set p | p in checks && checks[p].state == CheckState.Down;
      var payload := Payload(check.id, event == DownEvent, |down|, |checks|);
      [Notification(incident, event, payload, NotificationState.Pending, 0, None, Some(now), None)]
  }

  /** The down alert of an incident is superseded, unless it is finished, and no other row changes. */
  predicate DownAlertEnds(ns: seq<Notification>, ns': seq<Notification>, id: nat) {
    && |ns'| == |ns|
    && forall k | 0 <= k < |ns| ::
         ns'[k] == if ns[k].incident == id && ns[k].event == DownEvent && ns[k].state != Delivered && ns[k].state != Superseded
                   then ns[k].(state := Superseded, nextAttemptAt := None)
                   else ns[k]
  }

  /**
    Incidents and notifications after a committed write on a check whose flag goes from before to after: an incident
    begins with its alert, or ends with its alert, or nothing changes.
   */
  predicate StoreFollows(db: Db, db': Db, check: CheckDef, before: bool, after: bool, checks: Children, now: Time) {
    var c, n := check.id, |db.notifications|;
    if !before && after && Active(db, c) && !HasOpen(db, c) then
      && db'.incidents == db.incidents + [Incident(c, now, None)]
      && db'.notifications == db.notifications + AlertOf(check, |db.incidents|, DownEvent, checks, now)
    else if before && !after && HasOpen(db, c) then
      var id := FindOpen(db.incidents, c).value;
      && db'.incidents == db.incidents[id := Incident(c, db.incidents[id].startedAt, Some(now))]
      && |db'.notifications| >= n && DownAlertEnds(db.notifications, db'.notifications[..n], id)
      && db'.notifications[n..] == AlertOf(check, id, UpEvent, checks, now)
    else db'.incidents == db.incidents && db'.notifications == db.notifications
  }

  lemma OpenQueues(db: Db, check: CheckDef, q: Quorum, now: Time)
    requires DbOk(db)
    ensures StoreFollows(db, Opened(db, check.id, NotificationRequest(check, true, q), now), check, false, true, q.checks, now)
  {
    assert forall k | 0 <= k < |db.notifications| :: RowOk(db.notifications[k], db.incidents);
  }

  lemma ResolveQueues(db: Db, check: CheckDef, q: Quorum, now: Time)
    requires DbOk(db)
    ensures StoreFollows(db, Resolved(db, check.id, NotificationRequest(check, false, q), now), check, true, false, q.checks, now)
  {
    assert forall k | 0 <= k < |db.notifications| :: RowOk(db.notifications[k], db.incidents);
    if HasOpen(db, check.id) {
      var id := FindOpen(db.incidents, check.id).value;
      var superseded := SupersedeAll(db.notifications, {id}, {DownEvent});
      assert forall k | 0 <= k < |superseded| ::
          superseded[k].incident == db.notifications[k].incident && superseded[k].event == db.notifications[k].event;
      var db' := Resolved(db, check.id, NotificationRequest(check, false, q), now);
      assert db'.notifications == superseded + AlertOf(check, id, UpEvent, q.checks, now);
      assert db'.notifications[..|superseded|] == superseded;
    }
  }

  /** A write that says what the flag did, and asks for the check's alert. */
  predicate Announces(incident: Option<IncidentWrite>, check: CheckDef, before: bool, after: bool, q: Quorum) {
    && Follows(incident, before, after)
    && (incident.Some? ==> incident.value.request == NotificationRequest(check, !incident.value.resolve, q))
  }

  lemma WriteQueues(db: Db, write: MonitoringWrite, now: Time, check: CheckDef, before: bool, after: bool, q: Quorum)
    requires DbOk(db) && write.row.check == check.id
    requires Active(db, check.id) ==> Announces(write.incident, check, before, after, q)
    ensures StoreFollows(db, PersistWrite(db, write, now), check, before, after, q.checks, now)
  {
    hide DbOk, Opened, Resolved, NotificationRequest, AlertOf, Normalized, WithNotification;
    var mid := Upserted(db, write.row, now);
    StepKeepsOk(db, Upsert(write.row, now));
    if Active(db, check.id) {
      if write.incident.Some? && write.incident.value.resolve {
        ResolveQueues(mid, check, q, now);
      } else if write.incident.Some? {
        OpenQueues(mid, check, q, now);
      }
    } else {
      InactiveIgnores(mid, write, now);
      InactiveIgnores(db, write, now);
    }
  }

  lemma InactiveIgnores(db: Db, write: MonitoringWrite, now: Time)
    requires DbOk(db) && !Active(db, write.row.check)
    ensures !HasOpen(db, write.row.check)
    ensures write.incident.Some? ==>
              && Opened(db, write.row.check, write.incident.value.request, now) == db
              && Resolved(db, write.row.check, write.incident.value.request, now) == db
  {
    InactiveHasNone(db, write.row.check);
  }

  // ---- Results and sweeps -------------------------------------------------------------------------------------------

  lemma ReportAnnounces(check: CheckDef, q: Quorum, p: ProbeId, up: bool, at: Time, expiresAt: Time)
    requires QuorumOk(q)
    ensures var r := Reported(q, p, up, at, expiresAt);
            Announces(IncidentFor(check, r, q.state), check, q.state.incidentOpen, r.state.incidentOpen, r)
  {
    hide QuorumOk, Reported, NotificationRequest;
    WriteFollowsFlag(check, q, p, up, at, expiresAt);
  }

  lemma ItemEffect(w: World, item: ObservedResult, now: Time)
    ensures var w', a, c := CommitItem(w, item, now), ApplyItem(w.rt, item), item.check.id;
            && w'.db == PersistWrite(w.db, a.write, now) && c in w'.rt.quorums && w'.rt.quorums[c] == ItemQuorum(w.rt, item)
            && a.write.row.check == c && a.write.incident == IncidentFor(item.check, ItemQuorum(w.rt, item), QuorumOf(w.rt, c).state)
  {
    hide PersistWrite, JournalOf, Now, TrailOf, Reported, IncidentFor;
  }

  lemma ItemQueues(w: World, item: ObservedResult, now: Time)
    requires Consistent(w)
    ensures var w', c := CommitItem(w, item, now), item.check.id;
            && c in w'.rt.quorums
            && StoreFollows(w.db, w'.db, item.check, FlagOf(w.rt, c), FlagOf(w'.rt, c), w'.rt.quorums[c].checks, now)
  {
    hide Consistent, DbOk, QuorumsTraced, StoreFollows, CommitItem, ApplyItem, PersistWrite, Reported, IncidentFor, Announces,
      QuorumOk, AlertsTruthful, TrailOf, Starts, Now, LogsOf;
    var c, q := item.check.id, ItemQuorum(w.rt, item);
    ConsistentParts(w);
    TrailLeads(w, c);
    ItemEffect(w, item, now);
    ReportAnnounces(item.check, QuorumOf(w.rt, c), item.probe, item.up, item.at, EvidenceExpiresAt(item.check, item.at));
    WriteQueues(w.db, ApplyItem(w.rt, item).write, now, item.check, FlagOf(w.rt, c), q.state.incidentOpen, q);
  }

  /** The check a sweep would alert about. */
  function LookedUp(c: CheckId, lookup: Lookup): CheckDef {
    if lookup.Found? then lookup.check else CheckDef(c, 0, "")
  }

  lemma SweepQueues(w: World, c: CheckId, p: ProbeId, now: Time, lookup: Lookup, ok: bool)
    requires Consistent(w) && LookupPossible(w.db, c, lookup) && c in w.rt.quorums
    ensures var w' := Sweeping(w, c, p, now, lookup, ok);
            && c in w'.rt.quorums
            && StoreFollows(w.db, w'.db, LookedUp(c, lookup), FlagOf(w.rt, c), FlagOf(w'.rt, c), w'.rt.quorums[c].checks, now)
  {
    ConsistentParts(w);
    SweepIsCommitting(w, c, p, now, lookup, ok);
    hide Consistent, DbOk, QuorumsTraced, PersistWrite, JournalOf, Now, TrailOf, LostBy, Sweeping, AlertsTruthful,
      NotificationRequest, AlertOf;
    var swept := SweepAssignment(w.rt, c, p, now, lookup, ok);
    if swept.outcome.Committed? {
      var q, r := w.rt.quorums[c], LostBy(w.rt.quorums[c], p);
      if Active(w.db, c) {
        SweepFollows(w, c, p, lookup);
      }
      WriteQueues(w.db, swept.outcome.write, now, LookedUp(c, lookup), q.state.incidentOpen, r.state.incidentOpen, r);
    }
  }

  /** Every result of every batch of every run: incidents and alerts change exactly so. */
  lemma EveryResultAlerts(actions: seq<Action>, items: seq<ObservedResult>, now: Time, i: nat)
    requires Acceptable(Exec(INITIAL, actions), items) && i < |items|
    ensures var w, w' := CommitItems(Exec(INITIAL, actions), items[..i], now), CommitItems(Exec(INITIAL, actions), items[..i + 1], now);
            var c := items[i].check.id;
            && c in w'.rt.quorums
            && StoreFollows(w.db, w'.db, items[i].check, FlagOf(w.rt, c), FlagOf(w'.rt, c), w'.rt.quorums[c].checks, now)
  {
    hide Exec, Consistent, CommitItem, StoreFollows;
    RunKeepsConsistent(actions);
    assert items[..i + 1][..i] == items[..i];
    BatchKeepsConsistent(Exec(INITIAL, actions), items[..i], now);
    ItemQueues(CommitItems(Exec(INITIAL, actions), items[..i], now), items[i], now);
  }

  /** And so for every step of every evidence sweep. */
  lemma EverySweepAlerts(actions: seq<Action>, c: CheckId, p: ProbeId, now: Time, lookup: Lookup, ok: bool)
    requires var w := Exec(INITIAL, actions); c in w.rt.quorums && LookupPossible(w.db, c, lookup)
    ensures var w := Exec(INITIAL, actions);
            var w' := Do(w, SweepEvidence(c, p, now, lookup, ok));
            && c in w'.rt.quorums
            && StoreFollows(w.db, w'.db, LookedUp(c, lookup), FlagOf(w.rt, c), FlagOf(w'.rt, c), w'.rt.quorums[c].checks, now)
  {
    hide Exec, Consistent, Sweeping, StoreFollows;
    RunKeepsConsistent(actions);
    SweepQueues(Exec(INITIAL, actions), c, p, now, lookup, ok);
  }

  // ---- Whole runs -------------------------------------------------------------------------------------------------

  predicate Queued(ns: seq<Notification>, id: nat, event: NotificationEvent) {
    exists j | 0 <= j < |ns| :: ns[j].incident == id && ns[j].event == event
  }

  /**
    With a webhook, every incident of c has its down alert, and every one that ended while c is active its recovery
    alert. Without, no notification belongs to an incident of c.
   */
  ghost predicate AlertsAre(db: Db, c: CheckId, hooked: bool) {
    if hooked then
      forall i | 0 <= i < |db.incidents| && db.incidents[i].check == c ::
        Queued(db.notifications, i, DownEvent)
        && (Active(db, c) && db.incidents[i].resolvedAt.Some? ==> Queued(db.notifications, i, UpEvent))
    else forall k | 0 <= k < |db.notifications| && db.notifications[k].incident < |db.incidents| ::
           db.incidents[db.notifications[k].incident].check != c
  }

  /** A step for which c has a webhook, or for which it has none. */
  predicate Hooked(a: Action, c: CheckId, hooked: bool) {
    match a
    case ResultBatch(items, _, _) => HookedItems(items, c, hooked)
    case SweepEvidence(d, _, _, lookup, _) => d == c && lookup.Found? ==> (lookup.check.webhook != "") == hooked
    case _ => true
  }

  predicate HookedItems(items: seq<ObservedResult>, c: CheckId, hooked: bool) {
    forall i | 0 <= i < |items| && items[i].check.id == c :: (items[i].check.webhook != "") == hooked
  }

  lemma SameKeysQueued(ns: seq<Notification>, ns': seq<Notification>, id: nat, event: NotificationEvent)
    requires Queued(ns, id, event) && |ns| <= |ns'|
    requires forall k | 0 <= k < |ns| :: ns'[k].incident == ns[k].incident && ns'[k].event == ns[k].event
    ensures Queued(ns', id, event)
  {
    var j :| 0 <= j < |ns| && ns[j].incident == id && ns[j].event == event;
    assert ns'[j].incident == id && ns'[j].event == event;
  }

  lemma OpeningKeepsAlerts(db: Db, db': Db, check: CheckDef, checks: Children, now: Time, c: CheckId, hooked: bool)
    requires DbOk(db) && AlertsAre(db, c, hooked) && db'.checks == db.checks
    requires check.id == c ==> (check.webhook != "") == hooked
    requires db'.incidents == db.incidents + [Incident(check.id, now, None)]
    requires db'.notifications == db.notifications + AlertOf(check, |db.incidents|, DownEvent, checks, now)
    ensures AlertsAre(db', c, hooked)
  {
    assert forall k | 0 <= k < |db.notifications| :: RowOk(db.notifications[k], db.incidents);
    if hooked {
      forall i | 0 <= i < |db'.incidents| && db'.incidents[i].check == c
        ensures Queued(db'.notifications, i, DownEvent)
        ensures Active(db', c) && db'.incidents[i].resolvedAt.Some? ==> Queued(db'.notifications, i, UpEvent)
      {
        if i < |db.incidents| {
          SameKeysQueued(db.notifications, db'.notifications, i, DownEvent);
          if Active(db, c) && db.incidents[i].resolvedAt.Some? {
            SameKeysQueued(db.notifications, db'.notifications, i, UpEvent);
          }
        } else {
          assert db'.notifications[|db.notifications|].incident == i;
        }
      }
    }
  }

  lemma EndKeepsAlerts(db: Db, db': Db, check: CheckDef, checks: Children, now: Time, id: nat, c: CheckId, hooked: bool)
    requires DbOk(db) && AlertsAre(db, c, hooked) && db'.checks == db.checks
    requires check.id == c ==> (check.webhook != "") == hooked
    requires id < |db.incidents| && db.incidents[id].check == check.id
    requires db'.incidents == db.incidents[id := Incident(check.id, db.incidents[id].startedAt, Some(now))]
    requires |db'.notifications| >= |db.notifications| && DownAlertEnds(db.notifications, db'.notifications[..|db.notifications|], id)
    requires db'.notifications[|db.notifications|..] == AlertOf(check, id, UpEvent, checks, now)
    ensures AlertsAre(db', c, hooked)
  {
    var n := |db.notifications|;
    assert forall k | 0 <= k < n :: db'.notifications[..n][k] == db'.notifications[k];
    assert forall k | 0 <= k < n ::
        db'.notifications[k].incident == db.notifications[k].incident && db'.notifications[k].event == db.notifications[k].event;
    assert forall k | 0 <= k < n :: RowOk(db.notifications[k], db.incidents);
    if hooked {
      forall i | 0 <= i < |db'.incidents| && db'.incidents[i].check == c
        ensures Queued(db'.notifications, i, DownEvent)
        ensures Active(db', c) && db'.incidents[i].resolvedAt.Some? ==> Queued(db'.notifications, i, UpEvent)
      {
        SameKeysQueued(db.notifications, db'.notifications, i, DownEvent);
        if i == id {
          assert db'.notifications[n] == db'.notifications[n..][0];
        } else if Active(db, c) && db.incidents[i].resolvedAt.Some? {
          SameKeysQueued(db.notifications, db'.notifications, i, UpEvent);
        }
      }
    } else {
      forall k | 0 <= k < |db'.notifications| && db'.notifications[k].incident < |db'.incidents|
        ensures db'.incidents[db'.notifications[k].incident].check != c
      {
        if k >= n {
          assert db'.notifications[k] == db'.notifications[n..][k - n];
        }
      }
    }
  }

  lemma WriteKeepsAlerts(db: Db, db': Db, check: CheckDef, before: bool, after: bool, checks: Children, now: Time, c: CheckId, hooked: bool)
    requires DbOk(db) && AlertsAre(db, c, hooked) && db'.checks == db.checks
    requires StoreFollows(db, db', check, before, after, checks, now)
    requires check.id == c ==> (check.webhook != "") == hooked
    ensures AlertsAre(db', c, hooked)
  {
    hide DbOk, AlertsAre, AlertOf, DownAlertEnds;
    if !before && after && Active(db, check.id) && !HasOpen(db, check.id) {
      OpeningKeepsAlerts(db, db', check, checks, now, c, hooked);
    } else if before && !after && HasOpen(db, check.id) {
      EndKeepsAlerts(db, db', check, checks, now, FindOpen(db.incidents, check.id).value, c, hooked);
    } else {
      SameTablesKeepAlerts(db, db', c, hooked);
    }
  }

  lemma SameTablesKeepAlerts(db: Db, db': Db, c: CheckId, hooked: bool)
    requires AlertsAre(db, c, hooked)
    requires db'.incidents == db.incidents && db'.notifications == db.notifications && db'.checks == db.checks
    ensures AlertsAre(db', c, hooked)
  {
  }

  lemma ItemKeepsAlerts(w: World, item: ObservedResult, now: Time, c: CheckId, hooked: bool)
    requires Consistent(w) && AlertsAre(w.db, c, hooked)
    requires item.check.id == c ==> (item.check.webhook != "") == hooked
    ensures AlertsAre(CommitItem(w, item, now).db, c, hooked)
  {
    var w' := CommitItem(w, item, now);
    assert w'.db.checks == w.db.checks by {
      hide JournalOf, Now, TrailOf, Reported;
      PersistTouches(w.db, ApplyItem(w.rt, item).write, now);
    }
    ConsistentParts(w);
    hide Consistent, DbOk, AlertsAre, StoreFollows, CommitItem, AlertsTruthful, QuorumsTraced;
    ItemQueues(w, item, now);
    WriteKeepsAlerts(w.db, w'.db, item.check, FlagOf(w.rt, item.check.id), FlagOf(w'.rt, item.check.id),
                     w'.rt.quorums[item.check.id].checks, now, c, hooked);
  }

  lemma {:induction false} BatchKeepsAlerts(w: World, items: seq<ObservedResult>, now: Time, c: CheckId, hooked: bool)
    requires Consistent(w) && AlertsAre(w.db, c, hooked) && Acceptable(w, items) && HookedItems(items, c, hooked)
    ensures AlertsAre(CommitItems(w, items, now).db, c, hooked)
  {
    hide Consistent, AlertsAre, CommitItem;
    if items != [] {
      var init := items[..|items| - 1];
      assert forall i | 0 <= i < |init| :: init[i] == items[i];
      BatchKeepsAlerts(w, init, now, c, hooked);
      BatchKeepsConsistent(w, init, now);
      ItemKeepsAlerts(CommitItems(w, init, now), items[|items| - 1], now, c, hooked);
    }
  }

  /** A sweep that did not find the check leaves incidents and notifications alone. */
  lemma UnfoundSweepIsSilent(w: World, c: CheckId, p: ProbeId, now: Time, lookup: Lookup, ok: bool)
    requires Consistent(w) && LookupPossible(w.db, c, lookup) && !lookup.Found?
    ensures var db' := Sweeping(w, c, p, now, lookup, ok).db; db'.incidents == w.db.incidents && db'.notifications == w.db.notifications
  {
    SweepIsCommitting(w, c, p, now, lookup, ok);
    hide Consistent, Sweeping, LostBy, Now, TrailOf, JournalOf;
  }

  lemma SweepKeepsAlerts(w: World, d: CheckId, p: ProbeId, now: Time, lookup: Lookup, ok: bool, c: CheckId, hooked: bool)
    requires Consistent(w) && AlertsAre(w.db, c, hooked) && (d == c && lookup.Found? ==> (lookup.check.webhook != "") == hooked)
    ensures AlertsAre(Sweeping(w, d, p, now, lookup, ok).db, c, hooked)
  {
    var w' := Sweeping(w, d, p, now, lookup, ok);
    SweepKeepsChecks(w, d, p, now, lookup, ok);
    ConsistentParts(w);
    hide Consistent, DbOk, AlertsAre, StoreFollows, Sweeping, AlertsTruthful, QuorumsTraced;
    if w' != w {
      if lookup.Found? {
        SweepQueues(w, d, p, now, lookup, ok);
        WriteKeepsAlerts(w.db, w'.db, lookup.check, FlagOf(w.rt, d), FlagOf(w'.rt, d), w'.rt.quorums[d].checks, now, c, hooked);
      } else {
        UnfoundSweepIsSilent(w, d, p, now, lookup, ok);
        SameTablesKeepAlerts(w.db, w'.db, c, hooked);
      }
    }
  }

  lemma SweepKeepsChecks(w: World, d: CheckId, p: ProbeId, now: Time, lookup: Lookup, ok: bool)
    ensures var w' := Sweeping(w, d, p, now, lookup, ok);
            w'.db.checks == w.db.checks && (w' != w ==> d in w.rt.quorums && LookupPossible(w.db, d, lookup))
  {
    SweepIsCommitting(w, d, p, now, lookup, ok);
    var swept := SweepAssignment(w.rt, d, p, now, lookup, ok);
    if swept.outcome.Committed? {
      PersistTouches(w.db, swept.outcome.write, now);
    }
    hide Sweeping, PersistWrite, LostBy, Now, TrailOf, JournalOf;
  }

  /** Rows and incidents keep what they are about, and no incident of a check that is active ends. */
  ghost predicate KeepsKeys(db: Db, db': Db, c: CheckId) {
    && |db'.notifications| == |db.notifications| && |db'.incidents| == |db.incidents|
    && (forall k | 0 <= k < |db.notifications| ::
          db'.notifications[k].incident == db.notifications[k].incident && db'.notifications[k].event == db.notifications[k].event)
    && (forall i | 0 <= i < |db.incidents| :: db'.incidents[i].check == db.incidents[i].check)
    && (forall i | 0 <= i < |db.incidents| && db.incidents[i].check == c && Active(db', c) ::
          Active(db, c) && db'.incidents[i] == db.incidents[i])
  }

  lemma TransactionKeepsKeys(db: Db, s: StoreStep, c: CheckId)
    requires DbOk(db) && !s.Open? && !s.Resolve?
    ensures KeepsKeys(db, Apply(db, s), c)
  {
    hide NotificationsOk, Normalized, Due;
  }

  lemma KeptKeysKeepAlerts(db: Db, db': Db, c: CheckId, hooked: bool)
    requires AlertsAre(db, c, hooked) && KeepsKeys(db, db', c)
    ensures AlertsAre(db', c, hooked)
  {
    hide Active;
    if hooked {
      forall i | 0 <= i < |db'.incidents| && db'.incidents[i].check == c
        ensures Queued(db'.notifications, i, DownEvent)
        ensures Active(db', c) && db'.incidents[i].resolvedAt.Some? ==> Queued(db'.notifications, i, UpEvent)
      {
        SameKeysQueued(db.notifications, db'.notifications, i, DownEvent);
        if Active(db', c) && db.incidents[i].resolvedAt.Some? {
          SameKeysQueued(db.notifications, db'.notifications, i, UpEvent);
        }
      }
    }
  }

  lemma OtherStepsKeepTables(w: World, a: Action)
    requires !a.ResultBatch? && !a.SweepEvidence? && !a.Transaction?
    ensures var db' := Do(w, a).db; db'.incidents == w.db.incidents && db'.notifications == w.db.notifications && db'.checks == w.db.checks
  {
    hide SweepProbe, Losing, Now, Recovered, RestartedLogs, Forgotten;
  }

  lemma StepKeepsAlerts(w: World, a: Action, c: CheckId, hooked: bool)
    requires Consistent(w) && AlertsAre(w.db, c, hooked) && Hooked(a, c, hooked)
    ensures AlertsAre(Do(w, a).db, c, hooked)
  {
    ConsistentParts(w);
    hide Consistent, DbOk, AlertsAre, AlertsTruthful, QuorumsTraced, CommitItems, Sweeping, Expiring, Restarting, Removing, Apply,
      HookedItems, KeepsKeys;
    match a
    case ResultBatch(items, now, ok) =>
      if Acceptable(w, items) && ok {
        BatchKeepsAlerts(w, items, now, c, hooked);
      }
    case SweepEvidence(d, p, now, lookup, ok) => SweepKeepsAlerts(w, d, p, now, lookup, ok, c, hooked);
    case Transaction(s) =>
      if !s.Open? && !s.Resolve? {
        TransactionKeepsKeys(w.db, s, c);
        KeptKeysKeepAlerts(w.db, Apply(w.db, s), c, hooked);
      }
    case _ =>
      OtherStepsKeepTables(w, a);
      SameTablesKeepAlerts(w.db, Do(w, a).db, c, hooked);
  }

  /**
    In every run in which a check has a webhook throughout, each of its incidents has its down alert and, unless it ended
    with the check itself, its recovery alert; in every run in which it has none, nothing is ever queued for it.
   */
  lemma {:induction false} EveryIncidentIsAlerted(actions: seq<Action>, c: CheckId, hooked: bool)
    requires forall i | 0 <= i < |actions| :: Hooked(actions[i], c, hooked)
    ensures AlertsAre(Exec(INITIAL, actions).db, c, hooked)
    decreases |actions|
  {
    if actions != [] {
      hide AlertsAre, Consistent, Do, Hooked;
      var init, a := actions[..|actions| - 1], actions[|actions| - 1];
      assert forall i | 0 <= i < |init| :: init[i] == actions[i];
      EveryIncidentIsAlerted(init, c, hooked);
      RunKeepsConsistent(init);
      StepKeepsAlerts(Exec(INITIAL, init), a, c, hooked);
    }
  }
}
