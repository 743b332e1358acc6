/**
  When a check goes up or down, and when its incident opens or resolves: the exact conditions, over what the logs of its
  probes end in.
 */
module Decisions {
  import opened MonitoringTypes
  import opened CheckMachines
  import opened QuorumMachines
  import opened EvidenceTrails
  import opened StoreTables
  import opened NotificationLifecycle
  import opened Results
  import opened Sweepers
  import opened MonitoringRuns
  import opened RunInvariants
  import opened CrashConsistency
  import opened ReportedEvidence

  // ---- One recompute --------------------------------------------------------------------------------------

  /** The assigned probes whose log ends in e. */
  function LastSaw(t: Traced, e: Event): set<ProbeId> {
    set p | p in t.q.checks && HistoryOf(t, p) != [] && HistoryOf(t, p)[|HistoryOf(t, p)| - 1] == e
  }

  /** Most assigned probes last saw the target up; while an incident is open, two ups in a row are asked of each. */
  predicate MostUp(t: Traced, open: bool) {
    if open then MostSaw(t, SawUp) else 2 * |LastSaw(t, SawUp)| > |t.q.checks|
  }

  /** No up result came at the zero time. */
  predicate Timed(checks: Children) {
    forall p | p in checks && checks[p].lastOutcome == Some(CheckState.Up) :: checks[p].lastResultAt != ZERO_TIME
  }

  /** The children count the streaks their logs end in. */
  ghost predicate Counts(t: Traced) {
    forall p :: Tracks(ChildOf(t.q.checks, p), HistoryOf(t, p))
  }

  lemma VoterIff(t: Traced, p: ProbeId, open: bool)
    requires Counts(t) && Timed(t.q.checks) && p in t.q.checks
    ensures p in Voters(t.q.checks, open, CheckState.Up) <==> p in if open then Witnesses(t, SawUp) else LastSaw(t, SawUp)
    ensures p in Voters(t.q.checks, open, CheckState.Down) <==> p in Witnesses(t, SawDown)
  {
    var child, h := t.q.checks[p], HistoryOf(t, p);
    assert Tracks(ChildOf(t.q.checks, p), h);
    StreakOfTwo(child, h, SawUp);
    StreakOfTwo(child, h, SawDown);
  }

  /** The aggregate state that the votes of these children call for, said of their logs. */
  lemma TallyIff(t: Traced, s: CheckQuorumState)
    requires Counts(t) && Timed(t.q.checks)
    ensures Tally(Quorum(s, t.q.checks)) ==
            if MostUp(t, s.incidentOpen) then QuorumState.Up
            else if MostSaw(t, SawDown) then QuorumState.Down
            else if s.lastStable == None then QuorumState.Pending
            else QuorumState.Error
  {
    hide Counts, Timed;
    var open := s.incidentOpen;
    var ups := if open then Witnesses(t, SawUp) else LastSaw(t, SawUp);
    forall p | p in t.q.checks
      ensures p in Voters(t.q.checks, open, CheckState.Up) <==> p in ups
      ensures p in Voters(t.q.checks, open, CheckState.Down) <==> p in Witnesses(t, SawDown)
    {
      VoterIff(t, p, open);
    }
    assert Voters(t.q.checks, open, CheckState.Up) == ups;
    assert Voters(t.q.checks, open, CheckState.Down) == Witnesses(t, SawDown);
  }

  /** Up and down majorities cannot both be seen. */
  lemma SightsExclude(t: Traced, open: bool)
    requires Counts(t) && Timed(t.q.checks)
    ensures !(MostUp(t, open) && MostSaw(t, SawDown))
  {
    var ups, downs := if open then Witnesses(t, SawUp) else LastSaw(t, SawUp), Witnesses(t, SawDown);
    assert ups !! downs;
    SubsetCardinality(ups + downs, t.q.checks.Keys);
  }

  /** An event that makes the quorum recompute: a new probe joins, or an assigned one reports or loses its evidence. */
  predicate Recomputes(t: Traced, op: Op) {
    op.Join? <==> op.probe !in t.q.checks
  }

  /** The aggregate state, the stable state and the incident flag after a recompute from before to after. */
  predicate Decided(before: Traced, after: Traced) {
    var s, open := before.q.state, before.q.state.incidentOpen;
    var up := MostUp(before, open) && MostUp(after, open);
    var down := MostSaw(before, SawDown) && MostSaw(after, SawDown);
    && after.q.state.state == (if MostUp(after, open) then QuorumState.Up
                               else if MostSaw(after, SawDown) then QuorumState.Down
                               else if s.lastStable == None then QuorumState.Pending
                               else QuorumState.Error)
    && after.q.state.lastStable == (if up then Some(QuorumState.Up) else if down then Some(QuorumState.Down) else s.lastStable)
    && after.q.state.incidentOpen == (if open then !up else s.lastStable == Some(QuorumState.Up) && down)
  }

  /**
    The exact condition: the stable state becomes up, or down, if and only if at this recompute and at the preceding one
    most assigned probes see it so. An open incident resolves exactly when most have two ups in a row at both, and one
    opens exactly over a stably up check when most have two downs in a row at both.
   */
  lemma DecisionIff(t: Traced, op: Op)
    requires Legal(t) && Recomputes(t, op) && Timed(t.q.checks) && Timed(Step(t, op).q.checks)
    ensures Decided(t, Step(t, op))
  {
    var after := Step(t, op);
    StepKeepsLegal(t, op);
    StepPromotes(t, op);
    hide MostUp, MostSaw, Tally, Timed, Tracks, Step;
    TallyIff(t, t.q.state);
    TallyIff(after, t.q.state);
    assert t.q == Quorum(t.q.state, t.q.checks);
    SightsExclude(t, t.q.state.incidentOpen);
    SightsExclude(after, t.q.state.incidentOpen);
  }

  lemma StepPromotes(t: Traced, op: Op)
    requires Recomputes(t, op)
    ensures Step(t, op).q.state == Promoted(t.q.state, Tally(Quorum(t.q.state, Step(t, op).q.checks)))
  {
    hide Tally, Promoted;
  }

  // ---- Whole lives -------------------------------------------------------------------------------------------

  predicate TimedOp(op: Op) {
    op.Observe? ==> op.at != ZERO_TIME
  }

  lemma StepKeepsTimed(t: Traced, op: Op)
    requires Timed(t.q.checks) && TimedOp(op)
    ensures Timed(Step(t, op).q.checks)
  {
    hide Tally;
  }

  /** A life all of whose events are recomputes and whose results came at some time. */
  ghost predicate Lively(t: Trail) {
    && Timed(t.start.q.checks)
    && forall i | 0 <= i < |t.ops| :: Recomputes(At(t, i), t.ops[i]) && TimedOp(t.ops[i])
  }

  lemma {:induction false} LivelyIsTimed(t: Trail, i: nat)
    requires Lively(t) && i <= |t.ops|
    ensures Timed(At(t, i).q.checks)
    decreases i
  {
    if i > 0 {
      LivelyIsTimed(t, i - 1);
      TrailStep(t, i - 1);
      StepKeepsTimed(At(t, i - 1), t.ops[i - 1]);
    }
  }

  lemma LivelySnoc(t: Trail, op: Op)
    requires Lively(t) && Recomputes(Now(t), op) && TimedOp(op)
    ensures Lively(t.(ops := t.ops + [op])) && Now(t.(ops := t.ops + [op])) == Step(Now(t), op)
  {
    hide Recomputes, Timed, Step;
    var t' := t.(ops := t.ops + [op]);
    assert t'.ops[..|t.ops|] == t.ops;
    forall i | 0 <= i < |t'.ops| ensures Recomputes(At(t', i), t'.ops[i]) && TimedOp(t'.ops[i]) {
      assert t'.ops[..i] == t.ops[..i];
      if i == |t.ops| {
        assert t.ops[..i] == t.ops;
      }
    }
  }

  /** Every recompute of such a life, if its children count, decides as said. */
  lemma LifeDecides(t: Trail, i: nat)
    requires Legal(t.start) && Lively(t) && i < |t.ops|
    ensures Decided(At(t, i), At(t, i + 1))
  {
    hide Decided, Legal, Timed, Step;
    RunKeepsLegal(t.start, t.ops[..i]);
    LivelyIsTimed(t, i);
    LivelyIsTimed(t, i + 1);
    TrailStep(t, i);
    DecisionIff(At(t, i), t.ops[i]);
  }

  // ---- Runs -----------------------------------------------------------------------------------------------------

  /** A run whose results for c all come at some time. */
  predicate TimedRun(actions: seq<Action>, c: CheckId) {
    forall i | 0 <= i < |actions| && actions[i].ResultBatch? :: TimedItems(actions[i].items, c)
  }

  predicate TimedItems(items: seq<ObservedResult>, c: CheckId) {
    forall j | 0 <= j < |items| && items[j].check.id == c :: items[j].at != ZERO_TIME
  }

  ghost predicate RowsTimed(db: Db, c: CheckId) {
    forall p | (c, p) in db.rows && db.rows[(c, p)].lastOutcome == Some(CheckState.Up) :: db.rows[(c, p)].lastResultAt != ZERO_TIME
  }

  /** The life of the quorum of c is lively, and so will be one that is reloaded. */
  ghost predicate Alive(w: World, c: CheckId) {
    Lively(TrailOf(w, c)) && RowsTimed(w.db, c)
  }

  /** A committed write on c, of a child as its trail has it. */
  lemma CommittingKeepsAlive(w: World, c: CheckId, q: Quorum, ops: seq<Op>, write: MonitoringWrite, now: Time)
    requires RowsTimed(w.db, c) && write.row.check == c && write.row.probe in q.checks && write.row.child == q.checks[write.row.probe]
    requires var t := TrailOf(w, c);
             var t' := t.(ops := t.ops + ops);
             Lively(t') && Now(t').q == q
    ensures Alive(Committing(w, c, q, ops, write, now), c)
  {
    hide Lively, Now, JournalOf, Opened, Resolved;
    var t := TrailOf(w, c);
    var t' := t.(ops := t.ops + ops);
    LivelyNow(t');
    PersistTouches(w.db, write, now);
    hide PersistWrite;
  }

  lemma LivelyNow(t: Trail)
    requires Lively(t)
    ensures Timed(Now(t).q.checks)
  {
    assert t.ops[..|t.ops|] == t.ops;
    LivelyIsTimed(t, |t.ops|);
  }

  lemma CommittingElsewhere(w: World, d: CheckId, q: Quorum, ops: seq<Op>, write: MonitoringWrite, now: Time, c: CheckId)
    requires Alive(w, c) && write.row.check == d && c != d
    ensures Alive(Committing(w, d, q, ops, write, now), c)
  {
    hide Lively, Now, JournalOf;
    PersistTouches(w.db, write, now);
    hide PersistWrite;
  }

  lemma ItemOpsAreLively(t: Trail, item: ObservedResult)
    requires Lively(t) && item.at != ZERO_TIME
    ensures var t' := t.(ops := t.ops + ItemOps(Now(t).q, item)); Lively(t')
  {
    hide Lively, Now;
    var obs := Observe(item.probe, item.up, item.at, Some(EvidenceExpiresAt(item.check, item.at)));
    if item.probe in Now(t).q.checks {
      assert ItemOps(Now(t).q, item) == [obs];
      LivelySnoc(t, obs);
    } else {
      var joined := t.(ops := t.ops + [Join(item.probe)]);
      assert t.ops + ItemOps(Now(t).q, item) == joined.ops + [obs];
      LivelySnoc(t, Join(item.probe));
      LivelySnoc(joined, obs);
    }
  }

  lemma ItemKeepsAlive(w: World, item: ObservedResult, now: Time, c: CheckId)
    requires QuorumsTraced(w) && Alive(w, c) && (item.check.id == c ==> item.at != ZERO_TIME)
    ensures Alive(CommitItem(w, item, now), c)
  {
    hide Lively, RowsTimed, Committing, QuorumsTraced, QuorumOk;
    var d, a := item.check.id, ApplyItem(w.rt, item);
    if d == c {
      TrailLeads(w, c);
      var t := TrailOf(w, c);
      var ops := ItemOps(QuorumOf(w.rt, c), item);
      hide TrailOf, Starts;
      ItemOpsAreLively(t, item);
      ItemFollowsOps(Now(t), item);
      RunConcat(t.start, t.ops, ops);
      CommittingKeepsAlive(w, c, a.rt.quorums[c], ops, a.write, now);
    } else {
      CommittingElsewhere(w, d, a.rt.quorums[d], ItemOps(QuorumOf(w.rt, d), item), a.write, now, c);
    }
  }

  lemma {:induction false} BatchKeepsAlive(w: World, items: seq<ObservedResult>, now: Time, c: CheckId)
    requires Consistent(w) && Alive(w, c) && Acceptable(w, items) && TimedItems(items, c)
    ensures Alive(CommitItems(w, items, now), c)
  {
    hide Consistent, Alive, CommitItem;
    if items != [] {
      var init := items[..|items| - 1];
      assert forall i | 0 <= i < |init| :: init[i] == items[i];
      BatchKeepsAlive(w, init, now, c);
      BatchKeepsConsistent(w, init, now);
      ConsistentParts(CommitItems(w, init, now));
      ItemKeepsAlive(CommitItems(w, init, now), items[|items| - 1], now, c);
    }
  }

  lemma SweepKeepsAlive(w: World, d: CheckId, p: ProbeId, now: Time, lookup: Lookup, ok: bool, c: CheckId)
    requires QuorumsTraced(w) && Alive(w, c)
    ensures Alive(Sweeping(w, d, p, now, lookup, ok), c)
  {
    var swept := SweepAssignment(w.rt, d, p, now, lookup, ok);
    SweepIsCommitting(w, d, p, now, lookup, ok);
    hide Lively, RowsTimed, Committing, QuorumsTraced, QuorumOk, Sweeping, Recomputed;
    if swept.outcome.Committed? && LookupPossible(w.db, d, lookup) {
      if d == c {
        TrailLeads(w, c);
        SweepFollowsTrail(w, c, p, lookup);
        var t := TrailOf(w, c);
        hide TrailOf, Starts, Run;
        LivelySnoc(t, Lose(p));
        RunConcat(t.start, t.ops, [Lose(p)]);
        LossKeepsKeys(w.rt.quorums[c], p);
        CommittingKeepsAlive(w, c, LostBy(w.rt.quorums[c], p), [Lose(p)], swept.outcome.write, now);
      } else {
        CommittingElsewhere(w, d, LostBy(w.rt.quorums[d], p), [Lose(p)], swept.outcome.write, now, c);
      }
    }
  }

  lemma ExpiryKeepsAlive(w: World, p: ProbeId, now: Time, offlineAfter: int, c: CheckId)
    requires Alive(w, c)
    ensures Alive(Expiring(w, p, now, offlineAfter), c)
  {
    hide Lively, Now, SweepProbe, Recomputes;
    if c in w.trails && p in Now(w.trails[c]).q.checks {
      LoseRecomputes(Now(w.trails[c]), p);
      LivelySnoc(w.trails[c], Lose(p));
    }
    NewLifeIsLively(LogsOf(Expiring(w, p, now, offlineAfter), c));
  }

  lemma LoseRecomputes(t: Traced, p: ProbeId)
    requires p in t.q.checks
    ensures Recomputes(t, Lose(p)) && TimedOp(Lose(p))
  {
  }

  lemma NewLifeIsLively(logs: Logs)
    ensures Lively(Trail(Traced(NEW_QUORUM, logs), []))
  {
  }

  lemma RemoveKeepsAlive(w: World, d: CheckId, c: CheckId)
    requires Alive(w, c)
    ensures Alive(Removing(w, d), c)
  {
    hide Lively, Forgotten;
    NewLifeIsLively(LogsOf(Removing(w, d), c));
  }

  lemma EnsureKeepsAlive(w: World, d: CheckId, c: CheckId)
    requires Alive(w, c) && w.trails.Keys == w.rt.quorums.Keys
    ensures Alive(Ensuring(w, d), c)
  {
    hide Lively;
  }

  lemma RestartKeepsAlive(w: World, c: CheckId)
    requires RowsTimed(w.db, c)
    ensures Alive(Restarting(w), c)
  {
    hide RestartedLogs, Tally;
    NewLifeIsLively(LogsOf(Restarting(w), c));
  }

  lemma TransactionKeepsAlive(w: World, s: StoreStep, c: CheckId)
    requires Alive(w, c)
    ensures Alive(Do(w, Transaction(s)), c)
  {
    hide Lively;
    if !s.Upsert? {
      TransactionAddsNoRow(w.db, s);
    }
    hide Apply;
  }

  lemma StepKeepsAlive(w: World, a: Action, c: CheckId)
    requires Consistent(w) && Alive(w, c) && (a.ResultBatch? ==> TimedItems(a.items, c))
    ensures Alive(Do(w, a), c)
  {
    hide Consistent, Lively, QuorumsTraced, CommitItems, Sweeping, Expiring, Restarting, Removing, Ensuring, Apply;
    TracedParts(w);
    match a
    case ResultBatch(items, now, ok) =>
      if Acceptable(w, items) && ok {
        BatchKeepsAlive(w, items, now, c);
      }
    case SweepEvidence(d, p, now, lookup, ok) => SweepKeepsAlive(w, d, p, now, lookup, ok, c);
    case ExpireProbe(p, now, offlineAfter) => ExpiryKeepsAlive(w, p, now, offlineAfter, c);
    case Restart => RestartKeepsAlive(w, c);
    case RemoveCheck(d) => RemoveKeepsAlive(w, d, c);
    case EnsureCheck(d) => EnsureKeepsAlive(w, d, c);
    case Transaction(step) => TransactionKeepsAlive(w, step, c);
    case _ =>
  }

  /** In every run whose results for c come at some time, the life of its quorum is one of real recomputes. */
  lemma {:induction false} RunKeepsAlive(actions: seq<Action>, c: CheckId)
    requires TimedRun(actions, c)
    ensures Alive(Exec(INITIAL, actions), c)
    decreases |actions|
  {
    if actions != [] {
      hide Alive, Consistent, Do, TimedItems;
      var init, a := actions[..|actions| - 1], actions[|actions| - 1];
      assert forall i | 0 <= i < |init| :: init[i] == actions[i];
      RunKeepsAlive(init, c);
      RunKeepsConsistent(init);
      StepKeepsAlive(Exec(INITIAL, init), a, c);
    }
  }
}
