/**
  The log of an assignment is what really happened to it: every result, and every loss of its evidence, whether
  by an evidence sweep, by a probe sweep or because a restart did not reload it. No step rewrites it. A child
  counts the streak its log ends in, except after a restart that brings back a vote the log says was lost.
 */
module EvidenceLogs {
  import opened MonitoringTypes
  import opened CheckMachines
  import opened QuorumMachines
  import opened EvidenceTrails
  import opened StoreTables
  import opened Results
  import opened Sweepers
  import opened Recovery
  import opened MonitoringRuns
  import opened RunInvariants
  import opened CrashConsistency

  // ---- What is logged ---------------------------------------------------------------------------------

  lemma CommittingLogs(w: World, c: CheckId, q: Quorum, ops: seq<Op>, write: MonitoringWrite, now: Time, d: CheckId, r: ProbeId)
    requires QuorumsTraced(w)
    ensures var w' := Committing(w, c, q, ops, write, now);
            LogAt(w', d, r) == if d == c then HistoryOf(Run(Now(TrailOf(w, c)), ops), r) else LogAt(w, d, r)
  {
    hide PersistWrite, JournalOf, QuorumsTraced, Step;
    var trail := TrailOf(w, c);
    RunConcat(trail.start, trail.ops, ops);
  }

  lemma TrailLogs(w: World, c: CheckId, r: ProbeId)
    requires QuorumsTraced(w)
    ensures HistoryOf(Now(TrailOf(w, c)), r) == LogAt(w, c, r)
  {
    TrailLeads(w, c);
  }

  /** A committed result is logged for its own assignment, once, and nothing else is. */
  lemma ItemIsLogged(w: World, item: ObservedResult, now: Time, d: CheckId, r: ProbeId)
    requires QuorumsTraced(w)
    ensures LogAt(CommitItem(w, item, now), d, r) ==
            LogAt(w, d, r) + (if (d, r) == (item.check.id, item.probe) then [if item.up then SawUp else SawDown] else [])
  {
    hide QuorumsTraced, Committing;
    var c := item.check.id;
    var t := Now(TrailOf(w, c));
    TrailLeads(w, c);
    TrailLogs(w, c, r);
    var a := ApplyItem(w.rt, item);
    CommittingLogs(w, c, a.rt.quorums[c], ItemOps(t.q, item), a.write, now, d, r);
    ItemOpsLog(t, item, r);
  }

  lemma ItemOpsLog(t: Traced, item: ObservedResult, r: ProbeId)
    ensures HistoryOf(Run(t, ItemOps(t.q, item)), r) ==
            HistoryOf(t, r) + (if r == item.probe then [if item.up then SawUp else SawDown] else [])
  {
    hide Tally;
    var obs := Observe(item.probe, item.up, item.at, Some(EvidenceExpiresAt(item.check, item.at)));
    var ops := ItemOps(t.q, item);
    if item.probe in t.q.checks {
      assert ops == [obs] && ops[..0] == [];
      assert Run(t, ops) == Step(Run(t, []), obs);
      StepLogs(t, obs, r);
    } else {
      assert ops == [Join(item.probe), obs] && ops[..1] == [Join(item.probe)] && ops[..1][..0] == [];
      assert Run(t, ops) == Step(Run(t, ops[..1]), obs);
      assert Run(t, ops[..1]) == Step(t, Join(item.probe));
      StepLogs(t, Join(item.probe), r);
      StepLogs(Step(t, Join(item.probe)), obs, r);
    }
  }

  /** A committed evidence sweep logs the loss of its assignment. */
  lemma SweepIsLogged(w: World, c: CheckId, p: ProbeId, now: Time, lookup: Lookup, ok: bool, d: CheckId, r: ProbeId)
    requires QuorumsTraced(w)
    ensures var committed := SweepAssignment(w.rt, c, p, now, lookup, ok).outcome.Committed? && LookupPossible(w.db, c, lookup);
            LogAt(Sweeping(w, c, p, now, lookup, ok), d, r) ==
            LogAt(w, d, r) + (if committed && (d, r) == (c, p) then [LostEvidence] else [])
  {
    hide QuorumsTraced, Committing, Recomputed;
    var swept := SweepAssignment(w.rt, c, p, now, lookup, ok);
    if swept.outcome.Committed? && LookupPossible(w.db, c, lookup) {
      var t := Now(TrailOf(w, c));
      TrailLeads(w, c);
      TrailLogs(w, c, r);
      CommittingLogs(w, c, swept.rt.quorums[c], [Lose(p)], swept.outcome.write, now, d, r);
      assert [Lose(p)][..0] == [];
      assert Run(t, [Lose(p)]) == Step(t, Lose(p));
      StepLogs(t, Lose(p), r);
    }
  }

  /** A probe expiry logs the loss of every assignment of the probe. */
  lemma ExpiryIsLogged(w: World, p: ProbeId, now: Time, offlineAfter: int, d: CheckId, r: ProbeId)
    requires QuorumsTraced(w)
    ensures var expires := p in w.rt.probes && HeartbeatStale(w.rt.probes[p], now, offlineAfter);
            LogAt(Expiring(w, p, now, offlineAfter), d, r) ==
            LogAt(w, d, r) + (if expires && r == p && p in Assigned(w.rt.quorums, d) then [LostEvidence] else [])
  {
    hide Recomputed, Starts, DegradeAll;
    if d in w.trails {
      var t := w.trails[d];
      RunConcat(t.start, t.ops, [Lose(p)]);
      assert [Lose(p)][..0] == [];
      assert Run(Now(t), [Lose(p)]) == Step(Now(t), Lose(p));
      StepLogs(Now(t), Lose(p), r);
    }
  }

  /** A restart logs a loss for every assignment it does not reload, and nothing for those it does. */
  lemma RestartIsLogged(w: World, c: CheckId, p: ProbeId)
    ensures var known := p in Assigned(w.rt.quorums, c) || p in Assigned(Recovered(w.db).quorums, c);
            LogAt(Restarting(w), c, p) == LogAt(w, c, p) + (if known && !Reloads(w.db, c, p) then [LostEvidence] else [])
  {
    hide Recovered, Reloads;
  }

  lemma RemovalIsLogged(w: World, c: CheckId, d: CheckId, p: ProbeId)
    ensures LogAt(Removing(w, c), d, p) ==
            LogAt(w, d, p) + (if !Active(w.db, c) && d == c && p in Assigned(w.rt.quorums, c) then [LostEvidence] else [])
  {
  }

  lemma {:induction false} BatchOnlyLogs(w: World, items: seq<ObservedResult>, now: Time, c: CheckId, p: ProbeId)
    requires Consistent(w) && Acceptable(w, items)
    ensures LogAt(w, c, p) <= LogAt(CommitItems(w, items, now), c, p)
  {
    hide Consistent, CommitItem;
    if items != [] {
      var init := items[..|items| - 1];
      assert forall i | 0 <= i < |init| :: init[i] == items[i];
      BatchOnlyLogs(w, init, now, c, p);
      BatchKeepsConsistent(w, init, now);
      ConsistentParts(CommitItems(w, init, now));
      ItemIsLogged(CommitItems(w, init, now), items[|items| - 1], now, c, p);
    }
  }

  /** No step rewrites a log. */
  lemma LogOnlyGrows(w: World, a: Action, c: CheckId, p: ProbeId)
    requires Consistent(w)
    ensures LogAt(w, c, p) <= LogAt(Do(w, a), c, p)
  {
    hide Consistent, QuorumsTraced, LogAt, CommitItems, Sweeping, Expiring, Restarting, Removing;
    ConsistentParts(w);
    match a
    case ResultBatch(items, now, ok) =>
      if Acceptable(w, items) && ok {
        BatchOnlyLogs(w, items, now, c, p);
      }
    case SweepEvidence(d, r, now, lookup, ok) => SweepIsLogged(w, d, r, now, lookup, ok, c, p);
    case ExpireProbe(r, now, offlineAfter) => ExpiryIsLogged(w, r, now, offlineAfter, c, p);
    case Restart => RestartIsLogged(w, c, p);
    case RemoveCheck(d) => RemovalIsLogged(w, d, c, p);
    case _ => SameLog(w, Do(w, a), c, p);
  }

  /** At no point of any run is a log anything but an extension of what it was before. */
  lemma {:induction false} RunOnlyLogs(actions: seq<Action>, n: nat, c: CheckId, p: ProbeId)
    requires n <= |actions|
    ensures LogAt(Exec(INITIAL, actions[..n]), c, p) <= LogAt(Exec(INITIAL, actions), c, p)
    decreases |actions|
  {
    hide LogAt, Do, Consistent;
    if n == |actions| {
      assert actions[..n] == actions;
    } else {
      var init := actions[..|actions| - 1];
      RunOnlyLogs(init, n, c, p);
      assert init[..n] == actions[..n];
      RunKeepsConsistent(init);
      LogOnlyGrows(Exec(INITIAL, init), actions[|actions| - 1], c, p);
    }
  }

  lemma SameLog(w: World, w': World, c: CheckId, p: ProbeId)
    requires w'.log == w.log
    ensures LogAt(w', c, p) == LogAt(w, c, p)
  {
  }

  // ---- Streaks and logs ---------------------------------------------------------------------------------

  /** The child in memory counts the streak its log ends in: the longest run of one result with no loss in it. */
  ghost predicate Counted(w: World, c: CheckId, p: ProbeId) {
    Tracks(ChildOf(QuorumOf(w.rt, c).checks, p), LogAt(w, c, p))
  }

  /** The life of the quorum of c began with counted children. */
  ghost predicate Tracked(w: World, c: CheckId) {
    Legal(TrailOf(w, c).start)
  }

  lemma TrackedIsCounted(w: World, c: CheckId, p: ProbeId)
    requires QuorumsTraced(w) && Tracked(w, c)
    ensures Counted(w, c, p) && Legal(Now(TrailOf(w, c)))
  {
    hide Tracks;
    TrailLeads(w, c);
    RunKeepsLegal(TrailOf(w, c).start, TrailOf(w, c).ops);
    assert Tracks(ChildOf(Now(TrailOf(w, c)).q.checks, p), HistoryOf(Now(TrailOf(w, c)), p));
  }

  /**
    A restart revives a vote: memory has no evidence for the assignment, because a probe sweep or an earlier
    restart took it, but its row still has an outcome and is reloaded.
   */
  predicate Revives(w: World, c: CheckId, p: ProbeId) {
    && Reloads(w.db, c, p) && w.db.rows[(c, p)].lastOutcome.Some?
    && ChildOf(QuorumOf(w.rt, c).checks, p).lastOutcome == None
  }

  /** What a restart makes of one assignment. */
  lemma RestartedChild(w: World, c: CheckId, p: ProbeId)
    ensures var child := ChildOf(QuorumOf(Restarting(w).rt, c).checks, p);
            if Reloads(w.db, c, p) then child == w.db.rows[(c, p)]
            else child == NEW_CHECK || (p in Assigned(Recovered(w.db).quorums, c) && child == Lost(child))
  {
    hide RestartedLogs, HasOpen, Tally;
  }

  lemma LostIsCounted(child: CheckExecState, h: seq<Event>)
    ensures Tracks(Lost(child), h + [LostEvidence]) && Tracks(NEW_CHECK, h + [LostEvidence])
  {
    var h' := h + [LostEvidence];
    assert h'[|h'| - 1] == LostEvidence;
  }

  lemma SameEvidenceTracks(row: CheckExecState, child: CheckExecState, h: seq<Event>)
    requires Tracks(child, h) && Coherent(row) && row.lastOutcome == child.lastOutcome && row.streakLen == child.streakLen
    ensures Tracks(row, h)
  {
  }

  /** A reloaded row counts the log exactly unless it has an outcome and memory had none. */
  lemma ReloadedRowTracks(row: CheckExecState, child: CheckExecState, h: seq<Event>)
    requires Tracks(child, h) && Coherent(row) && (child.lastOutcome == None || SameEvidence(row, child))
    ensures Tracks(row, h) <==> !(row.lastOutcome.Some? && child.lastOutcome == None)
  {
    if child.lastOutcome.Some? || row.lastOutcome == None {
      SameEvidenceTracks(row, child, h);
    }
  }

  /** The exact condition: a restart keeps an assignment counted if and only if it does not revive its vote. */
  lemma RestartKeepsCountIff(w: World, c: CheckId, p: ProbeId)
    requires Consistent(w) && AllBacked(w) && Counted(w, c, p)
    ensures Counted(Restarting(w), c, p) <==> !Revives(w, c, p)
  {
    hide Restarting, Recovered, LogAt, Tracks, Consistent;
    var child, h := ChildOf(QuorumOf(w.rt, c).checks, p), LogAt(w, c, p);
    RestartIsLogged(w, c, p);
    RestartedChild(w, c, p);
    assert h + [] == h;
    if Reloads(w.db, c, p) {
      RowIsCoherent(w, c, p);
      assert child.lastOutcome.Some? ==> QuorumBacked(w.db, c, w.rt.quorums[c]) && Backed(w.db, c, p, child);
      ReloadedRowTracks(w.db.rows[(c, p)], child, h);
    } else {
      LostIsCounted(ChildOf(QuorumOf(Restarting(w).rt, c).checks, p), h);
    }
  }

  lemma RowIsCoherent(w: World, c: CheckId, p: ProbeId)
    requires Consistent(w) && (c, p) in w.db.rows
    ensures Coherent(w.db.rows[(c, p)])
  {
  }

  // ---- Runs that revive nothing ---------------------------------------------------------------------------

  /** A restart that revives no vote on c. */
  ghost predicate FaithfulRestart(w: World, c: CheckId) {
    forall p :: !Revives(w, c, p)
  }

  /** A run whose restarts revive no vote on c; everything else is arbitrary, and so is what befalls other checks. */
  ghost predicate FaithfulRun(actions: seq<Action>, c: CheckId) {
    forall i | 0 <= i < |actions| && actions[i].Restart? :: FaithfulRestart(Exec(INITIAL, actions[..i]), c)
  }

  /** Committed writes and expiries leave every life begun as it was. */
  lemma CommittingKeepsStart(w: World, d: CheckId, q: Quorum, ops: seq<Op>, write: MonitoringWrite, now: Time, c: CheckId)
    ensures TrailOf(Committing(w, d, q, ops, write, now), c).start == TrailOf(w, c).start
  {
    hide PersistWrite, JournalOf, Now;
  }

  lemma {:induction false} BatchKeepsStart(w: World, items: seq<ObservedResult>, now: Time, c: CheckId)
    ensures TrailOf(CommitItems(w, items, now), c).start == TrailOf(w, c).start
  {
    hide Committing, TrailOf;
    if items != [] {
      var init, last := items[..|items| - 1], items[|items| - 1];
      BatchKeepsStart(w, init, now, c);
      var w', d := CommitItems(w, init, now), last.check.id;
      var a := ApplyItem(w'.rt, last);
      CommittingKeepsStart(w', d, a.rt.quorums[d], ItemOps(QuorumOf(w'.rt, d), last), a.write, now, c);
    }
  }

  lemma SweepKeepsStart(w: World, d: CheckId, p: ProbeId, now: Time, lookup: Lookup, ok: bool, c: CheckId)
    ensures TrailOf(Sweeping(w, d, p, now, lookup, ok), c).start == TrailOf(w, c).start
  {
    hide Committing, TrailOf;
    var swept := SweepAssignment(w.rt, d, p, now, lookup, ok);
    if swept.outcome.Committed? && LookupPossible(w.db, d, lookup) {
      CommittingKeepsStart(w, d, swept.rt.quorums[d], [Lose(p)], swept.outcome.write, now, c);
    }
  }

  lemma ExpiryKeepsStart(w: World, p: ProbeId, now: Time, offlineAfter: int, c: CheckId)
    ensures TrailOf(Expiring(w, p, now, offlineAfter), c).start == TrailOf(w, c).start
  {
    hide Now, DegradeAll;
  }

  /** A new life is counted if every log that comes with it ends without evidence. */
  lemma NewLifeIsLegal(logs: Logs)
    requires forall p :: Tracks(NEW_CHECK, HistoryOf(Traced(NEW_QUORUM, logs), p))
    ensures Legal(Traced(NEW_QUORUM, logs))
  {
    hide Tracks;
    assert Settled(NEW_QUORUM);
    var t := Traced(NEW_QUORUM, logs);
    forall p ensures Tracks(ChildOf(t.q.checks, p), HistoryOf(t, p)) {
      assert Tracks(NEW_CHECK, HistoryOf(t, p));
    }
  }

  /** A removed quorum leaves logs that end without evidence. */
  lemma RemovedLog(w: World, c: CheckId, p: ProbeId)
    requires QuorumsTraced(w) && Tracked(w, c) && !Active(w.db, c)
    ensures Tracks(NEW_CHECK, LogAt(Removing(w, c), c, p))
  {
    RemovalIsLogged(w, c, c, p);
    TrackedIsCounted(w, c, p);
    LostIsCounted(NEW_CHECK, LogAt(w, c, p));
    hide Tracks, Legal, QuorumsTraced, Tracked, Removing;
    assert LogAt(w, c, p) + [] == LogAt(w, c, p);
  }

  lemma RemovedTrail(w: World, d: CheckId, c: CheckId)
    requires !Active(w.db, d)
    ensures TrailOf(Removing(w, d), c) == if c == d then NewTrail(Removing(w, c), c) else TrailOf(w, c)
  {
  }

  lemma RemovedLogsAreLegal(w: World, c: CheckId)
    requires QuorumsTraced(w) && Tracked(w, c) && !Active(w.db, c)
    ensures Legal(Traced(NEW_QUORUM, LogsOf(Removing(w, c), c)))
  {
    hide Legal, Tracks, QuorumsTraced, Tracked, Removing;
    var logs := LogsOf(Removing(w, c), c);
    forall p ensures Tracks(NEW_CHECK, HistoryOf(Traced(NEW_QUORUM, logs), p)) {
      RemovedLog(w, c, p);
    }
    NewLifeIsLegal(logs);
  }

  lemma RemoveKeepsTracked(w: World, d: CheckId, c: CheckId)
    requires Consistent(w) && Tracked(w, c)
    ensures Tracked(Removing(w, d), c)
  {
    ConsistentParts(w);
    hide Consistent, Legal, QuorumsTraced, TrailOf;
    if !Active(w.db, d) {
      RemovedTrail(w, d, c);
      hide Removing;
      if c == d {
        RemovedLogsAreLegal(w, c);
      }
    } else {
      assert Removing(w, d) == w;
    }
  }

  lemma RestartKeepsTracked(w: World, c: CheckId)
    requires Consistent(w) && AllBacked(w) && Tracked(w, c) && FaithfulRestart(w, c)
    ensures Tracked(Restarting(w), c)
  {
    hide Tracks, Restarting, Tracked;
    ConsistentParts(w);
    RestartKeepsConsistent(w);
    ConsistentParts(Restarting(w));
    hide Consistent, AllBacked, QuorumsTraced, AlertsTruthful, Counted;
    forall p ensures Counted(Restarting(w), c, p) {
      TrackedIsCounted(w, c, p);
      assert !Revives(w, c, p);
      RestartKeepsCountIff(w, c, p);
    }
    RestartedLife(w, c);
    RestartedStart(Restarting(w), c);
  }

  lemma RestartedLife(w: World, c: CheckId)
    ensures TrailOf(Restarting(w), c).ops == []
  {
    hide RestartedLogs, Recovered;
  }

  /** After a restart every life is at its beginning, so counted children are all it takes. */
  lemma RestartedStart(w: World, c: CheckId)
    requires QuorumsTraced(w) && TrailOf(w, c).ops == [] && forall p :: Counted(w, c, p)
    ensures Tracked(w, c)
  {
    hide Tracks;
    TrailLeads(w, c);
    var t := TrailOf(w, c).start;
    assert t == Traced(QuorumOf(w.rt, c), LogsOf(w, c));
    hide QuorumsTraced, TrailOf;
    forall p ensures Tracks(ChildOf(t.q.checks, p), HistoryOf(t, p)) {
      assert Counted(w, c, p);
    }
  }

  lemma EnsureKeepsStart(w: World, d: CheckId, c: CheckId)
    requires w.trails.Keys == w.rt.quorums.Keys
    ensures TrailOf(Ensuring(w, d), c).start == TrailOf(w, c).start
  {
  }

  lemma UntouchedStart(w: World, w': World, c: CheckId)
    requires w'.trails == w.trails && w'.log == w.log
    ensures TrailOf(w', c).start == TrailOf(w, c).start
  {
  }

  lemma StepKeepsTracked(w: World, a: Action, c: CheckId)
    requires Consistent(w) && AllBacked(w) && Tracked(w, c)
    requires a.Restart? ==> FaithfulRestart(w, c)
    ensures Tracked(Do(w, a), c)
  {
    hide Consistent, AllBacked, Legal, TrailOf, FaithfulRestart, CommitItems, Sweeping, Expiring, Restarting, Removing, Ensuring;
    match a
    case ResultBatch(items, now, ok) =>
      if Acceptable(w, items) && ok {
        BatchKeepsStart(w, items, now, c);
      }
    case SweepEvidence(d, p, now, lookup, ok) => SweepKeepsStart(w, d, p, now, lookup, ok, c);
    case ExpireProbe(p, now, offlineAfter) => ExpiryKeepsStart(w, p, now, offlineAfter, c);
    case Restart => RestartKeepsTracked(w, c);
    case RemoveCheck(d) => RemoveKeepsTracked(w, d, c);
    case EnsureCheck(d) =>
      ConsistentParts(w);
      EnsureKeepsStart(w, d, c);
    case _ => UntouchedStart(w, Do(w, a), c);
  }

  /** In every run that revives no vote on c, every assignment of c counts the streak its log ends in. */
  lemma {:induction false} RunKeepsTracked(actions: seq<Action>, c: CheckId)
    requires FaithfulRun(actions, c)
    ensures Tracked(Exec(INITIAL, actions), c)
    ensures forall p :: Counted(Exec(INITIAL, actions), c, p)
  {
    if actions == [] {
      assert Settled(NEW_QUORUM);
    } else {
      hide Tracked, Consistent, AllBacked, Do, FaithfulRestart, Counted;
      var n := |actions| - 1;
      var init := actions[..n];
      FaithfulPrefix(actions, n, c);
      RunKeepsTracked(init, c);
      RunKeepsConsistent(init);
      RunKeepsBacked(init);
      StepKeepsTracked(Exec(INITIAL, init), actions[n], c);
    }
    ReachedIsCounted(actions, c);
  }

  lemma ReachedIsCounted(actions: seq<Action>, c: CheckId)
    requires Tracked(Exec(INITIAL, actions), c)
    ensures forall p :: Counted(Exec(INITIAL, actions), c, p)
  {
    RunKeepsConsistent(actions);
    ConsistentParts(Exec(INITIAL, actions));
    hide Exec, Consistent, QuorumsTraced, Tracked, Counted;
    forall p ensures Counted(Exec(INITIAL, actions), c, p) {
      TrackedIsCounted(Exec(INITIAL, actions), c, p);
    }
  }

  lemma FaithfulPrefix(actions: seq<Action>, n: nat, c: CheckId)
    requires FaithfulRun(actions, c) && n <= |actions|
    ensures FaithfulRun(actions[..n], c)
    ensures n < |actions| && actions[n].Restart? ==> FaithfulRestart(Exec(INITIAL, actions[..n]), c)
  {
    hide FaithfulRestart, Exec;
    assert forall i | 0 <= i <= n :: actions[..n][..i] == actions[..i];
  }
}
