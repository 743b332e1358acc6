/**
  How long evidence and liveness last, in numbers: two intervals for a result, the offline time for a heartbeat, whatever
  else happens meanwhile.
 */
module Deadlines {
  import opened MonitoringTypes
  import opened QuorumMachines
  import opened EvidenceTrails
  import opened StoreTables
  import opened NotificationLifecycle
  import opened Results
  import opened Sweepers
  import opened Recovery
  import opened MonitoringRuns
  import opened RunInvariants
  import opened CrashConsistency

  // ---- Evidence -----------------------------------------------------------------------------------------------

  predicate IsAssigned(w: World, c: CheckId, p: ProbeId) {
    c in w.rt.quorums && p in w.rt.quorums[c].checks
  }

  function Child(w: World, c: CheckId, p: ProbeId): CheckExecState
    requires IsAssigned(w, c, p)
  {
    w.rt.quorums[c].checks[p]
  }

  /** A step that brings no result for the assignment, sweeps neither it nor its probe, and is no removal or restart. */
  predicate Spares(a: Action, c: CheckId, p: ProbeId) {
    match a
    case ResultBatch(items, _, _) => forall i | 0 <= i < |items| :: (items[i].check.id, items[i].probe) != (c, p)
    case SweepEvidence(d, r, _, _, _) => (d, r) != (c, p)
    case ExpireProbe(r, _, _) => r != p
    case RemoveCheck(d) => d != c
    case Restart => false
    case _ => true
  }

  lemma ItemSpares(w: World, item: ObservedResult, now: Time, c: CheckId, p: ProbeId)
    requires IsAssigned(w, c, p) && (item.check.id, item.probe) != (c, p)
    ensures var w' := CommitItem(w, item, now); IsAssigned(w', c, p) && Child(w', c, p) == Child(w, c, p)
  {
    hide Reported, PersistWrite, JournalOf, Now, TrailOf, IncidentFor;
    var q := QuorumOf(w.rt, item.check.id);
    ReportTouchesOne(q, item.probe, item.up, item.at, EvidenceExpiresAt(item.check, item.at));
    if item.check.id == c {
      var r := ItemQuorum(w.rt, item);
      assert p in q.checks - {item.probe};
      assert p in r.checks - {item.probe} && (r.checks - {item.probe})[p] == q.checks[p];
    }
  }

  lemma {:induction false} BatchSpares(w: World, items: seq<ObservedResult>, now: Time, c: CheckId, p: ProbeId)
    requires IsAssigned(w, c, p) && forall i | 0 <= i < |items| :: (items[i].check.id, items[i].probe) != (c, p)
    ensures var w' := CommitItems(w, items, now); IsAssigned(w', c, p) && Child(w', c, p) == Child(w, c, p)
  {
    hide CommitItem;
    if items != [] {
      var init := items[..|items| - 1];
      assert forall i | 0 <= i < |init| :: init[i] == items[i];
      BatchSpares(w, init, now, c, p);
      ItemSpares(CommitItems(w, init, now), items[|items| - 1], now, c, p);
    }
  }

  lemma SweepSpares(w: World, d: CheckId, r: ProbeId, now: Time, lookup: Lookup, ok: bool, c: CheckId, p: ProbeId)
    requires IsAssigned(w, c, p) && (d, r) != (c, p)
    ensures var w' := Sweeping(w, d, r, now, lookup, ok); IsAssigned(w', c, p) && Child(w', c, p) == Child(w, c, p)
  {
    hide PersistWrite, JournalOf, Now, TrailOf, LossWrite;
    SweepSparesFreshEvidence(w.rt, d, r, now, lookup, ok, c, p);
    hide Tally;
  }

  lemma ExpirySpares(w: World, r: ProbeId, now: Time, offlineAfter: int, c: CheckId, p: ProbeId)
    requires IsAssigned(w, c, p) && r != p
    ensures var w' := Expiring(w, r, now, offlineAfter); IsAssigned(w', c, p) && Child(w', c, p) == Child(w, c, p)
  {
    hide Now, Losing, Tally;
  }

  lemma StepSpares(w: World, a: Action, c: CheckId, p: ProbeId)
    requires IsAssigned(w, c, p) && Spares(a, c, p)
    ensures IsAssigned(Do(w, a), c, p) && Child(Do(w, a), c, p) == Child(w, c, p)
  {
    hide CommitItems, Sweeping, Expiring, Restarting, Apply, Forgotten;
    match a
    case ResultBatch(items, now, ok) => BatchSpares(w, items, now, c, p);
    case SweepEvidence(d, r, now, lookup, ok) => SweepSpares(w, d, r, now, lookup, ok, c, p);
    case ExpireProbe(r, now, offlineAfter) => ExpirySpares(w, r, now, offlineAfter, c, p);
    case _ =>
  }

  lemma {:induction false} RunSpares(w: World, actions: seq<Action>, c: CheckId, p: ProbeId)
    requires IsAssigned(w, c, p) && forall i | 0 <= i < |actions| :: Spares(actions[i], c, p)
    ensures var w' := Exec(w, actions); IsAssigned(w', c, p) && Child(w', c, p) == Child(w, c, p)
    decreases |actions|
  {
    if actions != [] {
      hide Do, Spares;
      var init := actions[..|actions| - 1];
      assert forall i | 0 <= i < |init| :: init[i] == actions[i];
      RunSpares(w, init, c, p);
      StepSpares(Exec(w, init), actions[|actions| - 1], c, p);
    }
  }

  /** What a sweep of the assignment does at a time, if the store answers and commits: all or nothing, by the deadline. */
  ghost predicate ExpiresAt(w: World, c: CheckId, p: ProbeId, deadline: Time) {
    forall now, lookup | LookupPossible(w.db, c, lookup) && !lookup.LookupFailed? ::
      var w' := Do(w, SweepEvidence(c, p, now, lookup, true));
      if deadline != ZERO_TIME && now >= deadline then
        IsAssigned(w', c, p) && Child(w', c, p) == CheckExecState(Child(w, c, p).lastResultAt, None, 0, ZERO_TIME, Missing)
      else w' == w
  }

  lemma DeadlineDecides(w: World, c: CheckId, p: ProbeId)
    requires IsAssigned(w, c, p) && Child(w, c, p).state != CheckState.Error
    ensures ExpiresAt(w, c, p, Child(w, c, p).expiresAt)
  {
    hide PersistWrite, JournalOf, Now, TrailOf, LossWrite, Tally;
  }

  /** The deadline of a result: two intervals after it, where an interval that is not positive counts as 30 seconds. */
  function TwoIntervalsAfter(item: ObservedResult): Time {
    item.at + (if item.check.interval > 0 then item.check.interval else 30) * 2_000_000_000
  }

  lemma ItemSetsChild(w: World, item: ObservedResult, now: Time)
    ensures var w', c, p := CommitItem(w, item, now), item.check.id, item.probe;
            && IsAssigned(w', c, p)
            && Child(w', c, p).expiresAt == TwoIntervalsAfter(item) && Child(w', c, p).lastResultAt == item.at
            && Child(w', c, p).lastOutcome == Some(if item.up then CheckState.Up else CheckState.Down)
            && Child(w', c, p).state != CheckState.Error
  {
    hide PersistWrite, JournalOf, Now, TrailOf, Tally, IncidentFor;
  }

  /**
    A committed result counts for two intervals: whatever happens to other assignments meanwhile, a sweep that the store
    answers and commits clears its evidence if and only if the deadline has come, and otherwise changes nothing.
   */
  lemma EvidenceLastsTwoIntervals(w: World, item: ObservedResult, t: Time, actions: seq<Action>)
    requires item.probe in w.rt.probes && item.check.id in w.db.checks
    requires forall i | 0 <= i < |actions| :: Spares(actions[i], item.check.id, item.probe)
    ensures var w', c, p := Exec(Do(w, ResultBatch([item], t, true)), actions), item.check.id, item.probe;
            && IsAssigned(w', c, p) && Child(w', c, p).lastResultAt == item.at
            && Child(w', c, p).lastOutcome == Some(if item.up then CheckState.Up else CheckState.Down)
            && ExpiresAt(w', c, p, TwoIntervalsAfter(item))
  {
    hide Do, CommitItem, Spares, ExpiresAt, TwoIntervalsAfter;
    BatchOfOne(w, item, t);
    ItemSetsChild(w, item, t);
    RunSpares(CommitItem(w, item, t), actions, item.check.id, item.probe);
    DeadlineDecides(Exec(CommitItem(w, item, t), actions), item.check.id, item.probe);
  }

  /** The deadline is durable: a crash before any other step and whatever happens after the restart do not move it. */
  lemma DeadlineSurvivesRestart(w: World, item: ObservedResult, t: Time, actions: seq<Action>)
    requires Consistent(w) && item.probe in w.rt.probes && Active(w.db, item.check.id)
    requires item.probe in w.db.probes && w.db.probes[item.probe].Some? && item.at != ZERO_TIME && TwoIntervalsAfter(item) != ZERO_TIME
    requires forall i | 0 <= i < |actions| :: Spares(actions[i], item.check.id, item.probe)
    ensures var w' := Exec(Do(Do(w, ResultBatch([item], t, true)), Restart), actions);
            IsAssigned(w', item.check.id, item.probe) && ExpiresAt(w', item.check.id, item.probe, TwoIntervalsAfter(item))
  {
    hide Do, Restarting, CommitItem, Spares, ExpiresAt, TwoIntervalsAfter, Consistent;
    var c, p, w1 := item.check.id, item.probe, CommitItem(w, item, t);
    BatchOfOne(w, item, t);
    ItemRow(w, item, t);
    RestartReloads(w1, c, p);
    RestartIsRestarting(w1);
    RunSpares(Restarting(w1), actions, c, p);
    DeadlineDecides(Exec(Restarting(w1), actions), c, p);
  }

  lemma RestartIsRestarting(w: World)
    ensures Do(w, Restart) == Restarting(w)
  {
    hide Restarting;
  }

  lemma ItemRow(w: World, item: ObservedResult, t: Time)
    requires Consistent(w) && item.probe in w.rt.probes && Active(w.db, item.check.id)
    requires item.at != ZERO_TIME && TwoIntervalsAfter(item) != ZERO_TIME
    ensures var w', k := CommitItem(w, item, t), (item.check.id, item.probe);
            && w'.db.checks == w.db.checks && w'.db.probes == w.db.probes && k.0 != NoCheck && k.1 != NoProbe
            && k in w'.db.rows && w'.db.rows[k].expiresAt == TwoIntervalsAfter(item) && w'.db.rows[k].state != CheckState.Error
  {
    hide JournalOf, Now, TrailOf, Tally, IncidentFor, Opened, Resolved;
    hide PersistWrite;
    PersistTouches(w.db, ApplyItem(w.rt, item).write, t);
  }

  // ---- Heartbeats -----------------------------------------------------------------------------------------------

  /** A step that is no heartbeat and no expiry of the probe, and no restart. */
  predicate SparesProbe(a: Action, p: ProbeId) {
    match a
    case Heartbeat(r, _, _) => r != p
    case ExpireProbe(r, _, _) => r != p
    case Restart => false
    case _ => true
  }

  predicate HeardAt(w: World, p: ProbeId, h: Time) {
    p in w.rt.probes && w.rt.probes[p] == ProbeRuntimeState(Online, Some(h))
  }

  lemma {:induction false} BatchSparesProbes(w: World, items: seq<ObservedResult>, now: Time)
    ensures CommitItems(w, items, now).rt.probes == w.rt.probes
  {
    hide PersistWrite, JournalOf, Now, TrailOf, Reported, IncidentFor;
    if items != [] {
      BatchSparesProbes(w, items[..|items| - 1], now);
    }
  }

  lemma StepSparesProbe(w: World, a: Action, p: ProbeId, h: Time)
    requires HeardAt(w, p, h) && SparesProbe(a, p)
    ensures HeardAt(Do(w, a), p, h)
  {
    hide CommitItems, Restarting, Apply, PersistWrite, JournalOf, Now, Losing, TrailOf, LostBy, LossWrite, Forgotten, DegradeAll;
    if a.ResultBatch? {
      BatchSparesProbes(w, a.items, a.now);
    }
  }

  lemma {:induction false} RunSparesProbe(w: World, actions: seq<Action>, p: ProbeId, h: Time)
    requires HeardAt(w, p, h) && forall i | 0 <= i < |actions| :: SparesProbe(actions[i], p)
    ensures HeardAt(Exec(w, actions), p, h)
    decreases |actions|
  {
    if actions != [] {
      hide Do, SparesProbe, HeardAt;
      var init := actions[..|actions| - 1];
      assert forall i | 0 <= i < |init| :: init[i] == actions[i];
      RunSparesProbe(w, init, p, h);
      StepSparesProbe(Exec(w, init), actions[|actions| - 1], p, h);
    }
  }

  /** The probe goes offline, and with it all its votes, or nothing changes at all. */
  ghost predicate GoesOfflineAt(w: World, p: ProbeId, h: Time) {
    forall now, offlineAfter ::
      var w' := Do(w, ExpireProbe(p, now, offlineAfter));
      if now >= h + offlineAfter then
        && p in w'.rt.probes && w'.rt.probes[p] == ProbeRuntimeState(Offline, Some(h))
        && (forall c | IsAssigned(w, c, p) :: IsAssigned(w', c, p) && Child(w', c, p).lastOutcome == None)
      else w' == w
  }

  lemma HeartbeatDecides(w: World, p: ProbeId, h: Time)
    requires HeardAt(w, p, h)
    ensures GoesOfflineAt(w, p, h)
  {
    hide Now, Losing, Tally;
  }

  /**
    A heartbeat keeps its probe online for the offline time: whatever happens meanwhile but another heartbeat or a
    restart, an expiry takes the probe offline if and only if that much time has passed, and otherwise changes nothing.
   */
  lemma HeartbeatLasts(w: World, p: ProbeId, h: Time, actions: seq<Action>)
    requires p in w.rt.probes && forall i | 0 <= i < |actions| :: SparesProbe(actions[i], p)
    ensures var w' := Exec(Do(w, Heartbeat(p, h, true)), actions); HeardAt(w', p, h) && GoesOfflineAt(w', p, h)
  {
    var w1 := Do(w, Heartbeat(p, h, true));
    assert HeardAt(w1, p, h);
    hide Do, SparesProbe, GoesOfflineAt, HeardAt;
    RunSparesProbe(w1, actions, p, h);
    HeartbeatDecides(Exec(w1, actions), p, h);
  }

  /** So does one from before a crash, if the store knows the probe. */
  lemma HeartbeatSurvivesRestart(w: World, p: ProbeId, h: Time, actions: seq<Action>)
    requires p in w.rt.probes && p in w.db.probes && p != NoProbe && forall i | 0 <= i < |actions| :: SparesProbe(actions[i], p)
    ensures var w' := Exec(Do(Do(w, Heartbeat(p, h, true)), Restart), actions); HeardAt(w', p, h) && GoesOfflineAt(w', p, h)
  {
    var w1 := Do(Do(w, Heartbeat(p, h, true)), Restart);
    assert HeardAt(w1, p, h) by {
      hide RestartedLogs, RecoveredQuorum, RecoveredChildren, HasOpen;
    }
    hide Do, SparesProbe, GoesOfflineAt, HeardAt;
    RunSparesProbe(w1, actions, p, h);
    HeartbeatDecides(Exec(w1, actions), p, h);
  }
}
