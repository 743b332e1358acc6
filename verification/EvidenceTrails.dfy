/**
  What evidence stands behind an incident. A trail is the life of one check's quorum in memory, from
  its creation or its recovery on: the events that led to a recompute, in order. Beside the quorum it
  carries the log of every probe that ever reported on the check: results and losses of evidence, also
  those from before the trail began.
 */
module EvidenceTrails {
  import opened MonitoringTypes
  import opened CheckMachines
  import opened QuorumMachines

  /** One recompute: a probe joined, reported a result, or lost its evidence. */
  datatype Op =
    | Join(probe: ProbeId)
    | Observe(probe: ProbeId, up: bool, at: Time, expiresAt: Option<Time>)
    | Lose(probe: ProbeId)

  datatype Traced = Traced(q: Quorum, hist: map<ProbeId, seq<Event>>)

  function HistoryOf(t: Traced, p: ProbeId): seq<Event> {
    if p in t.hist then t.hist[p] else []
  }

  /** A child changed and the quorum was recomputed. */
  function Update(t: Traced, p: ProbeId, child: CheckExecState, h: seq<Event>): Traced {
    Traced(Recomputed(t.q.(checks := t.q.checks[p := child])), t.hist[p := h])
  }

  /** One event and its recompute; an event for a probe that is not assigned does nothing. */
  function Step(t: Traced, op: Op): Traced {
    var p := op.probe;
    match op
    case Join(_) =>
      if p in t.q.checks then t else Update(t, p, NEW_CHECK, HistoryOf(t, p))
    case Observe(_, up, at, expiresAt) =>
      if p !in t.q.checks then t
      else Update(t, p, Observed(t.q.checks[p], up, at, expiresAt), HistoryOf(t, p) + [if up then SawUp else SawDown])
    case Lose(_) =>
      if p !in t.q.checks then t
      else Update(t, p, Lost(t.q.checks[p]), HistoryOf(t, p) + [LostEvidence])
  }

  function Run(t: Traced, ops: seq<Op>): Traced {
    if ops == [] then t else Step(Run(t, ops[..|ops| - 1]), ops[|ops| - 1])
  }

  /** The child of a probe; one that is not assigned has no evidence. */
  function ChildOf(checks: Children, p: ProbeId): CheckExecState {
    if p in checks then checks[p] else NEW_CHECK
  }

  /** Every child counts the streak its log ends in, and the aggregate state is settled. */
  ghost predicate Legal(t: Traced) {
    && (forall p :: Tracks(ChildOf(t.q.checks, p), HistoryOf(t, p)))
    && Sound(t.q.state)
    && Settled(t.q)
  }

  lemma UpdateKeepsLegal(t: Traced, p: ProbeId, child: CheckExecState, h: seq<Event>)
    requires Legal(t) && Tracks(child, h)
    ensures Legal(Update(t, p, child, h))
  {
    hide Tally, Tracks;
    RecomputeSettles(t.q.(checks := t.q.checks[p := child]));
    var t' := Update(t, p, child, h);
    forall r ensures Tracks(ChildOf(t'.q.checks, r), HistoryOf(t', r)) {
      assert Tracks(ChildOf(t.q.checks, r), HistoryOf(t, r));
    }
  }

  lemma StepKeepsLegal(t: Traced, op: Op)
    requires Legal(t)
    ensures Legal(Step(t, op))
  {
    hide Recomputed, Tracks;
    var p := op.probe;
    var child, h := ChildOf(t.q.checks, p), HistoryOf(t, p);
    assert Tracks(child, h);
    if op.Join? {
      if p !in t.q.checks {
        UpdateKeepsLegal(t, p, NEW_CHECK, h);
      }
    } else if p in t.q.checks {
      var e := if op.Lose? then LostEvidence else if op.up then SawUp else SawDown;
      var at, expiresAt := if op.Observe? then op.at else ZERO_TIME, if op.Observe? then op.expiresAt else None;
      StreakTracksHistory(child, h, e, at, expiresAt);
      UpdateKeepsLegal(t, p, After(child, e, at, expiresAt), h + [e]);
    }
  }

  lemma RunKeepsLegal(t: Traced, ops: seq<Op>)
    requires Legal(t)
    ensures Legal(Run(t, ops))
  {
    if ops != [] {
      RunKeepsLegal(t, ops[..|ops| - 1]);
      StepKeepsLegal(Run(t, ops[..|ops| - 1]), ops[|ops| - 1]);
    }
  }

  /** Logs only grow: a step adds one event to the log of its own probe, and a join adds none. */
  lemma StepLogs(t: Traced, op: Op, p: ProbeId)
    ensures var h := HistoryOf(t, p);
            HistoryOf(Step(t, op), p) ==
              if op.probe != p || p !in t.q.checks || op.Join? then h
              else h + [if op.Lose? then LostEvidence else if op.up then SawUp else SawDown]
  {
    hide Recomputed;
  }

  /** The assigned probes whose log ends in two events e. */
  function Witnesses(t: Traced, e: Event): set<ProbeId> {
    set p | p in t.q.checks && EndsInTwo(HistoryOf(t, p), e)
  }

  predicate MostSaw(t: Traced, e: Event) {
    2 * |Witnesses(t, e)| > |t.q.checks|
  }

  /** A down state says: most assigned probes have two consecutive downs. */
  lemma DownStateHasWitnesses(t: Traced)
    requires Legal(t) && t.q.state.state == QuorumState.Down
    ensures MostSaw(t, SawDown)
  {
    var voters := Voters(t.q.checks, t.q.state.incidentOpen, CheckState.Down);
    forall p | p in voters ensures p in Witnesses(t, SawDown) {
      assert Tracks(ChildOf(t.q.checks, p), HistoryOf(t, p));
      StreakOfTwo(t.q.checks[p], HistoryOf(t, p), SawDown);
    }
    SubsetCardinality(voters, Witnesses(t, SawDown));
  }

  /** A gated up majority says: most assigned probes have two consecutive ups. */
  lemma GatedUpMajorityHasWitnesses(t: Traced)
    requires Legal(t)
    requires Majority(Voters(t.q.checks, true, CheckState.Up), t.q.checks)
    ensures MostSaw(t, SawUp)
  {
    var voters := Voters(t.q.checks, true, CheckState.Up);
    forall p | p in voters ensures p in Witnesses(t, SawUp) {
      assert Tracks(ChildOf(t.q.checks, p), HistoryOf(t, p));
      StreakOfTwo(t.q.checks[p], HistoryOf(t, p), SawUp);
    }
    SubsetCardinality(voters, Witnesses(t, SawUp));
  }

  /**
    An incident opens only over a stably up check whose assigned probes, at this recompute and at the
    preceding one, mostly had two consecutive downs.
   */
  lemma OpeningHasEvidence(t: Traced, op: Op)
    requires Legal(t)
    requires !t.q.state.incidentOpen && Step(t, op).q.state.incidentOpen
    ensures t.q.state.lastStable == Some(QuorumState.Up)
    ensures MostSaw(t, SawDown) && MostSaw(Step(t, op), SawDown)
  {
    hide Tally, Tracks, Voters;
    StepKeepsLegal(t, op);
    DownStateHasWitnesses(t);
    DownStateHasWitnesses(Step(t, op));
  }

  /**
    An open incident resolves only if, at this recompute and at the preceding one, most assigned probes
    had two consecutive ups: the flag was already set at the preceding one, so its up votes were gated.
   */
  lemma ResolutionHasEvidence(t: Traced, op: Op)
    requires Legal(t)
    requires t.q.state.incidentOpen && !Step(t, op).q.state.incidentOpen
    ensures t.q.state.state == QuorumState.Up
    ensures MostSaw(t, SawUp) && MostSaw(Step(t, op), SawUp)
  {
    hide Tracks, Voters;
    StepKeepsLegal(t, op);
    GatedUpMajorityHasWitnesses(t);
    GatedUpMajorityHasWitnesses(Step(t, op));
  }

  // ---- Whole lives --------------------------------------------------------------------------

  datatype Trail = Trail(start: Traced, ops: seq<Op>)

  /** The quorum after the first k recomputes of the trail. */
  function At(t: Trail, k: nat): Traced
    requires k <= |t.ops|
  {
    Run(t.start, t.ops[..k])
  }

  function Now(t: Trail): Traced {
    Run(t.start, t.ops)
  }

  /** A life that starts with streaks its logs end in, and not stably up. */
  ghost predicate Begins(t: Trail) {
    Legal(t.start) && t.start.q.state.lastStable != Some(QuorumState.Up)
  }

  lemma TrailStep(t: Trail, i: nat)
    requires i < |t.ops|
    ensures At(t, i + 1) == Step(At(t, i), t.ops[i])
  {
    assert t.ops[..i + 1][..i] == t.ops[..i];
  }

  /** The evidence behind every opening and every resolution in the whole life of a quorum. */
  lemma IncidentsHaveEvidence(t: Trail, i: nat)
    requires Begins(t) && i < |t.ops|
    ensures Legal(At(t, i)) && Legal(At(t, i + 1))
    ensures var before, after := At(t, i), At(t, i + 1);
            && (!before.q.state.incidentOpen && after.q.state.incidentOpen ==>
                  && i > 0
                  && before.q.state.lastStable == Some(QuorumState.Up)
                  && MostSaw(before, SawDown) && MostSaw(after, SawDown))
            && (before.q.state.incidentOpen && !after.q.state.incidentOpen ==>
                  MostSaw(before, SawUp) && MostSaw(after, SawUp))
  {
    hide Step, Legal, MostSaw;
    RunKeepsLegal(t.start, t.ops[..i]);
    RunKeepsLegal(t.start, t.ops[..i + 1]);
    TrailStep(t, i);
    var before, after := At(t, i), At(t, i + 1);
    if !before.q.state.incidentOpen && after.q.state.incidentOpen {
      OpeningHasEvidence(before, t.ops[i]);
    } else if before.q.state.incidentOpen && !after.q.state.incidentOpen {
      ResolutionHasEvidence(before, t.ops[i]);
    }
  }
}
