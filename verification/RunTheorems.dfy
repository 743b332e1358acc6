/** The main results about whole runs of the monitoring server. */
module RunTheorems {
  import opened MonitoringTypes
  import opened CheckMachines
  import opened QuorumMachines
  import opened EvidenceTrails
  import opened StoreTables
  import opened NotificationLifecycle
  import opened Results
  import opened Sweepers
  import opened MonitoringRuns
  import opened RunInvariants
  import opened CrashConsistency
  import opened EvidenceLogs
  import opened DurableIncidents
  import opened ReportedEvidence
  import opened Decisions
  import opened Agreement

  /**
    In every run whose restarts revive no vote on c, an incident of c opens only over a stably up check and only if, at
    this recompute and at the preceding one, the logs of most assigned probes ended in two downs, with no loss of
    evidence between them; and it resolves only if, at both, most ended in two ups. The logs reach back through
    restarts to the beginning of the run.
   */
  lemma EveryIncidentHasEvidence(actions: seq<Action>, c: CheckId, i: nat)
    requires FaithfulRun(actions, c)
    requires c in Exec(INITIAL, actions).trails && i < |Exec(INITIAL, actions).trails[c].ops|
    ensures var w := Exec(INITIAL, actions);
            var t := w.trails[c];
            var before, after := At(t, i), At(t, i + 1);
            && c in w.rt.quorums && Now(t) == Traced(w.rt.quorums[c], LogsOf(w, c))
            && (!before.q.state.incidentOpen && after.q.state.incidentOpen ==>
                  && before.q.state.lastStable == Some(QuorumState.Up)
                  && MostSaw(before, SawDown) && MostSaw(after, SawDown))
            && (before.q.state.incidentOpen && !after.q.state.incidentOpen ==>
                  MostSaw(before, SawUp) && MostSaw(after, SawUp))
  {
    var w := Exec(INITIAL, actions);
    RunKeepsConsistent(actions);
    RunKeepsTracked(actions, c);
    ConsistentParts(w);
    hide Exec, Consistent, MostSaw, At;
    TrailLeads(w, c);
    assert Legal(TrailOf(w, c).start);
    IncidentsHaveEvidence(w.trails[c], i);
  }

  /**
    In every run at all, revived votes included, an incident of c opens only over a stably up check and only if, at
    this recompute and at the preceding one, the last two results of most assigned probes were downs; and it resolves
    only if, at both, the last two results of most were ups.
   */
  lemma EveryIncidentIsReported(actions: seq<Action>, c: CheckId, i: nat)
    requires c in Exec(INITIAL, actions).trails && i < |Exec(INITIAL, actions).trails[c].ops|
    ensures var t := Exec(INITIAL, actions).trails[c];
            var before, after := At(t, i), At(t, i + 1);
            && (!before.q.state.incidentOpen && after.q.state.incidentOpen ==>
                  && before.q.state.lastStable == Some(QuorumState.Up)
                  && MostReported(before, SawDown) && MostReported(after, SawDown))
            && (before.q.state.incidentOpen && !after.q.state.incidentOpen ==>
                  MostReported(before, SawUp) && MostReported(after, SawUp))
  {
    var w := Exec(INITIAL, actions);
    var t := w.trails[c];
    RunKeepsConsistent(actions);
    RunKeepsWorldSupported(actions);
    ConsistentParts(w);
    hide Exec, Consistent, MostReported, AllSupported, Step;
    assert LifeSupported(w, c);
    TrailLeads(w, c);
    RunKeepsSupport(t.start, t.ops[..i]);
    OpsKeepOk(t.start, t.ops[..i]);
    TrailStep(t, i);
    FlipIsReported(At(t, i), t.ops[i]);
  }

  /** The evidence for an opening: at recompute i of c the check was stably up, and at it and before it most probes saw two downs. */
  predicate SeenOpening(w: World, c: CheckId, i: nat) {
    && c in w.trails && i < |w.trails[c].ops| && At(w.trails[c], i).q.state.lastStable == Some(QuorumState.Up)
    && MostSaw(At(w.trails[c], i), SawDown) && MostSaw(At(w.trails[c], i + 1), SawDown)
  }

  /** The same, losses of evidence left out of account. */
  predicate ReportedOpening(w: World, c: CheckId, i: nat) {
    && c in w.trails && i < |w.trails[c].ops| && At(w.trails[c], i).q.state.lastStable == Some(QuorumState.Up)
    && MostReported(At(w.trails[c], i), SawDown) && MostReported(At(w.trails[c], i + 1), SawDown)
  }

  predicate SeenResolution(w: World, c: CheckId, i: nat) {
    && c in w.trails && i < |w.trails[c].ops|
    && MostSaw(At(w.trails[c], i), SawUp) && MostSaw(At(w.trails[c], i + 1), SawUp)
  }

  predicate ReportedResolution(w: World, c: CheckId, i: nat) {
    && c in w.trails && i < |w.trails[c].ops|
    && MostReported(At(w.trails[c], i), SawUp) && MostReported(At(w.trails[c], i + 1), SawUp)
  }

  /** The evidence at a recompute that opens an incident, or resolves one. */
  lemma FlipHasEvidence(actions: seq<Action>, w: World, c: CheckId, i: nat, opens: bool)
    requires FlipsWithin(w, Exec(INITIAL, actions), c, i, opens)
    ensures var w' := Exec(INITIAL, actions);
            && (opens ==> ReportedOpening(w', c, i) && (FaithfulRun(actions, c) ==> SeenOpening(w', c, i)))
            && (!opens ==> ReportedResolution(w', c, i) && (FaithfulRun(actions, c) ==> SeenResolution(w', c, i)))
  {
    hide Exec, MostSaw, MostReported, At, FaithfulRun;
    EveryIncidentIsReported(actions, c, i);
    if FaithfulRun(actions, c) {
      EveryIncidentHasEvidence(actions, c, i);
    }
  }

  /**
    Every durable incident of a run was appended by a step with a recompute of its check, in that very step and its own
    alone, at which the check went from no incident to one with that evidence.
   */
  lemma EveryDurableIncidentHasEvidence(actions: seq<Action>) returns (ms: map<nat, Moment>)
    ensures Openings(actions, ms)
    ensures forall k: nat | k < |Exec(INITIAL, actions).db.incidents| ::
              var c := Exec(INITIAL, actions).db.incidents[k].check;
              && k in ms && OpenedAt(actions, k, c, ms[k])
              && var w' := Exec(INITIAL, actions[..ms[k].step + 1]);
                 ReportedOpening(w', c, ms[k].at) && (FaithfulRun(actions, c) ==> SeenOpening(w', c, ms[k].at))
  {
    hide Exec, SeenOpening, ReportedOpening, FaithfulRun, FlipsWithin;
    ms := OpenedBy(actions);
    forall k: nat | k < |Exec(INITIAL, actions).db.incidents|
      ensures var c := Exec(INITIAL, actions).db.incidents[k].check;
              && k in ms && OpenedAt(actions, k, c, ms[k])
              && var w' := Exec(INITIAL, actions[..ms[k].step + 1]);
                 ReportedOpening(w', c, ms[k].at) && (FaithfulRun(actions, c) ==> SeenOpening(w', c, ms[k].at))
    {
      var c, n := Exec(INITIAL, actions).db.incidents[k].check, ms[k].step;
      FlipHasEvidence(actions[..n + 1], Exec(INITIAL, actions[..n]), c, ms[k].at, true);
      if FaithfulRun(actions, c) {
        FaithfulPrefix(actions, n + 1, c);
      }
    }
  }

  /**
    And it was resolved, if it is, by a step with such a recompute, at which the check went from an incident to none
    with the evidence for that, or by deleting the check.
   */
  lemma EveryDurableResolutionHasEvidence(actions: seq<Action>) returns (ms: map<nat, Moment>)
    ensures Resolutions(actions, ms)
    ensures forall k: nat | k < |Exec(INITIAL, actions).db.incidents| && Exec(INITIAL, actions).db.incidents[k].resolvedAt.Some? ::
              var c := Exec(INITIAL, actions).db.incidents[k].check;
              || DeletedAt(actions, k, c)
              || (&& k in ms && ResolvedAt(actions, k, c, ms[k])
                  && var w' := Exec(INITIAL, actions[..ms[k].step + 1]);
                     ReportedResolution(w', c, ms[k].at) && (FaithfulRun(actions, c) ==> SeenResolution(w', c, ms[k].at)))
  {
    hide Exec, SeenResolution, ReportedResolution, FaithfulRun, FlipsWithin, DeletedAt;
    ms := ResolvedBy(actions);
    forall k: nat | k < |Exec(INITIAL, actions).db.incidents| && Exec(INITIAL, actions).db.incidents[k].resolvedAt.Some? && k in ms
      ensures var c := Exec(INITIAL, actions).db.incidents[k].check;
              && ResolvedAt(actions, k, c, ms[k])
              && var w' := Exec(INITIAL, actions[..ms[k].step + 1]);
                 ReportedResolution(w', c, ms[k].at) && (FaithfulRun(actions, c) ==> SeenResolution(w', c, ms[k].at))
    {
      var c, n := Exec(INITIAL, actions).db.incidents[k].check, ms[k].step;
      FlipHasEvidence(actions[..n + 1], Exec(INITIAL, actions[..n]), c, ms[k].at, false);
      if FaithfulRun(actions, c) {
        FaithfulPrefix(actions, n + 1, c);
      }
    }
  }

  /**
    The other half: in every run whose restarts revive no vote on c and whose results for c come at some time, every
    recompute moves the stable state and the incident flag exactly as the logs call for.
   */
  lemma EveryDecisionFollowsLogs(actions: seq<Action>, c: CheckId, i: nat)
    requires FaithfulRun(actions, c) && TimedRun(actions, c)
    requires c in Exec(INITIAL, actions).trails && i < |Exec(INITIAL, actions).trails[c].ops|
    ensures var t := Exec(INITIAL, actions).trails[c]; Decided(At(t, i), At(t, i + 1))
  {
    hide Exec, Decided, Lively, Legal;
    RunKeepsTracked(actions, c);
    RunKeepsAlive(actions, c);
    LifeDecides(Exec(INITIAL, actions).trails[c], i);
  }

  /**
    And the store follows: if, since the last restart, probe sweeps were quiet for an active check, it has an unresolved
    incident exactly when its last recompute opened one, or left one open, on that evidence.
   */
  lemma DurableIncidentFollowsLogs(actions: seq<Action>, c: CheckId)
    requires FaithfulRun(actions, c) && TimedRun(actions, c) && QuietSinceRestart(actions, c)
    requires var w := Exec(INITIAL, actions); Active(w.db, c) && c in w.trails && w.trails[c].ops != []
    ensures var w := Exec(INITIAL, actions);
            var t := w.trails[c];
            var before, after := At(t, |t.ops| - 1), Now(t);
            HasOpen(w.db, c) <==>
              if before.q.state.incidentOpen then !(MostSaw(before, SawUp) && MostSaw(after, SawUp))
              else before.q.state.lastStable == Some(QuorumState.Up) && MostSaw(before, SawDown) && MostSaw(after, SawDown)
  {
    hide Exec, Consistent, MostSaw, FaithfulRun, TimedRun, QuietSinceRestart, Run, QuorumsTraced, QuorumOk, HasOpen, LogsOf;
    var w := Exec(INITIAL, actions);
    var t := w.trails[c];
    RunKeepsConsistent(actions);
    ConsistentParts(w);
    AgreementLasts(actions, c);
    EveryDecisionFollowsLogs(actions, c, |t.ops| - 1);
    assert t.ops[..|t.ops|] == t.ops;
    TrailLeads(w, c);
  }

  /** In every reachable state, each quorum in memory is the end of its trail and a fixpoint of recomputation. */
  lemma EveryQuorumIsSettled(actions: seq<Action>, c: CheckId)
    requires c in Exec(INITIAL, actions).rt.quorums
    ensures var w := Exec(INITIAL, actions);
            && c in w.trails && Now(w.trails[c]).q == w.rt.quorums[c]
            && Recomputed(w.rt.quorums[c]).state.state == w.rt.quorums[c].state.state
            && Recomputed(Recomputed(w.rt.quorums[c])) == Recomputed(w.rt.quorums[c])
  {
    RunKeepsConsistent(actions);
    TrailLeads(Exec(INITIAL, actions), c);
    RecomputeSettles(Exec(INITIAL, actions).rt.quorums[c]);
  }

  /** Every alert ever queued: more than half down when an incident opens, less than half when it resolves. */
  lemma EveryAlertIsTruthful(actions: seq<Action>, k: nat)
    requires k < |Exec(INITIAL, actions).db.notifications|
    ensures var n := Exec(INITIAL, actions).db.notifications[k];
            if n.event == DownEvent then 2 * n.payload.probesDown > n.payload.probesTotal
            else 2 * n.payload.probesDown < n.payload.probesTotal
  {
    RunKeepsConsistent(actions);
  }

  // ---- Beyond the agreement -----------------------------------------------------------------------

  /**
    What a probe sweep clears, a restart revives: from any state such a run reaches, expire the probe of a vote and
    restart. The vote is back, with the streak it had, though its log now ends in a loss.
   */
  lemma SweepThenRestartRevives(actions: seq<Action>, c: CheckId, p: ProbeId, now: Time, offlineAfter: int)
    requires FaithfulRun(actions, c)
    requires var w := Exec(INITIAL, actions);
             && Active(w.db, c) && c in w.rt.quorums && p in w.rt.quorums[c].checks
             && w.rt.quorums[c].checks[p].lastOutcome.Some?
             && p in w.rt.probes && HeartbeatStale(w.rt.probes[p], now, offlineAfter)
             && p in w.db.probes && w.db.probes[p].Some?
    ensures var w := Exec(INITIAL, actions);
            var swept := Do(w, ExpireProbe(p, now, offlineAfter));
            var after := Do(swept, Restart);
            && Revives(swept, c, p) && !Counted(after, c, p)
            && LogAt(after, c, p) == LogAt(w, c, p) + [LostEvidence]
            && c in after.rt.quorums && p in after.rt.quorums[c].checks
            && SameEvidence(after.rt.quorums[c].checks[p], w.rt.quorums[c].checks[p])
  {
    hide Exec, Consistent, AllBacked, Tracked, FaithfulRun, Expiring, Restarting, Counted, LogAt, Revives, SameEvidence;
    RunKeepsConsistent(actions);
    RunKeepsBacked(actions);
    RunKeepsTracked(actions, c);
    ExpiredThenReloaded(Exec(INITIAL, actions), c, p, now, offlineAfter);
  }

  lemma ExpiredThenReloaded(w: World, c: CheckId, p: ProbeId, now: Time, offlineAfter: int)
    requires Consistent(w) && AllBacked(w) && Tracked(w, c)
    requires Active(w.db, c) && c in w.rt.quorums && p in w.rt.quorums[c].checks && w.rt.quorums[c].checks[p].lastOutcome.Some?
    requires p in w.rt.probes && HeartbeatStale(w.rt.probes[p], now, offlineAfter)
    requires p in w.db.probes && w.db.probes[p].Some?
    ensures var swept := Expiring(w, p, now, offlineAfter);
            var after := Restarting(swept);
            && Revives(swept, c, p) && !Counted(after, c, p)
            && LogAt(after, c, p) == LogAt(w, c, p) + [LostEvidence]
            && c in after.rt.quorums && p in after.rt.quorums[c].checks
            && SameEvidence(after.rt.quorums[c].checks[p], w.rt.quorums[c].checks[p])
  {
    var swept := Expiring(w, p, now, offlineAfter);
    ConsistentParts(w);
    assert QuorumBacked(w.db, c, w.rt.quorums[c]);
    assert Backed(w.db, c, p, w.rt.quorums[c].checks[p]);
    ExpiredChild(w, c, p, now, offlineAfter);
    hide Consistent, AllBacked, Tracked, QuorumsTraced, DbOk, AlertsTruthful, Counted, Expiring, Restarting, LogAt;
    ExpiryKeepsConsistent(w, p, now, offlineAfter);
    ExpiryKeepsBacked(w, p, now, offlineAfter);
    ExpiryKeptTracked(w, p, now, offlineAfter, c);
    ConsistentParts(swept);
    TrackedIsCounted(swept, c, p);
    RestartKeepsCountIff(swept, c, p);
    ExpiryIsLogged(w, p, now, offlineAfter, c, p);
    RestartIsLogged(swept, c, p);
    RestartReloads(swept, c, p);
  }

  lemma ExpiryKeptTracked(w: World, p: ProbeId, now: Time, offlineAfter: int, c: CheckId)
    requires Tracked(w, c)
    ensures Tracked(Expiring(w, p, now, offlineAfter), c)
  {
    hide Expiring, Legal, TrailOf;
    ExpiryKeepsStart(w, p, now, offlineAfter, c);
  }

  lemma ExpiredChild(w: World, c: CheckId, p: ProbeId, now: Time, offlineAfter: int)
    requires c in w.rt.quorums && p in w.rt.quorums[c].checks && p in w.rt.probes && HeartbeatStale(w.rt.probes[p], now, offlineAfter)
    ensures var swept := Expiring(w, p, now, offlineAfter);
            && swept.db == w.db && c in swept.rt.quorums && p in swept.rt.quorums[c].checks
            && swept.rt.quorums[c].checks[p].lastOutcome == None
  {
    hide Tally, Now, Losing;
  }

  /** From any reachable state, drifted or not, an incident write of a result brings an active check back into agreement. */
  lemma IncidentWriteHeals(actions: seq<Action>, item: ObservedResult, now: Time)
    requires var w := Exec(INITIAL, actions);
             && item.probe in w.rt.probes && Active(w.db, item.check.id)
             && ApplyItem(w.rt, item).write.incident.Some?
    ensures AgreesOn(CommitItem(Exec(INITIAL, actions), item, now), item.check.id)
  {
    var w, c := Exec(INITIAL, actions), item.check.id;
    RunKeepsConsistent(actions);
    TrailLeads(w, c);
    WriteFollowsFlag(item.check, QuorumOf(w.rt, c), item.probe, item.up, item.at, EvidenceExpiresAt(item.check, item.at));
    WriteDecides(w.db, ApplyItem(w.rt, item).write, now, c);
  }

  /** And so does an incident write of an evidence sweep. */
  lemma SweepWriteHeals(actions: seq<Action>, c: CheckId, p: ProbeId, now: Time, lookup: Lookup, ok: bool)
    requires var w := Exec(INITIAL, actions);
             var outcome := SweepAssignment(w.rt, c, p, now, lookup, ok).outcome;
             Active(w.db, c) && LookupPossible(w.db, c, lookup) && outcome.Committed? && outcome.write.incident.Some?
    ensures AgreesOn(Sweeping(Exec(INITIAL, actions), c, p, now, lookup, ok), c)
  {
    var w := Exec(INITIAL, actions);
    RunKeepsConsistent(actions);
    ConsistentParts(w);
    hide Exec, Consistent, QuorumsTraced;
    SweepFollows(w, c, p, lookup);
    WriteDecides(w.db, SweepAssignment(w.rt, c, p, now, lookup, ok).outcome.write, now, c);
  }

  /** So does a restart, for all checks at once. */
  lemma RestartHeals(actions: seq<Action>)
    ensures Agrees(Do(Exec(INITIAL, actions), Restart))
  {
    RunKeepsConsistent(actions);
    RestartRestoresAgreement(Exec(INITIAL, actions));
  }
}
