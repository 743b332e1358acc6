/** One check's aggregate quorum (internal/monitoring/quorum_machine.go). */
module QuorumMachines {
  import opened MonitoringTypes
  import opened CheckMachines

  type Children = map<ProbeId, CheckExecState>

  /** The vote one child casts; up votes are gated by the streak only while an incident is open. */
  function Contribution(c: CheckExecState, incidentOpen: bool): CheckState {
    match c.lastOutcome
    case Some(Down) => if c.streakLen >= EVIDENCE_THRESHOLD then CheckState.Down else Missing
    case Some(Up) =>
      if incidentOpen && c.streakLen < EVIDENCE_THRESHOLD then Missing
      else if c.lastResultAt != ZERO_TIME then CheckState.Up
      else Missing
    case _ => Missing
  }

  function Threshold(total: nat): nat {
    total / 2 + 1
  }

  function Voters(checks: Children, incidentOpen: bool, vote: CheckState): set<ProbeId> {
    set p | p in checks && Contribution(checks[p], incidentOpen) == vote
  }

  /** A set of assigned probes that is a strict majority of them. */
  predicate Majority(voters: set<ProbeId>, checks: Children) {
    |voters| >= Threshold(|checks|)
  }

  /** The aggregate state the votes call for. */
  function Tally(q: Quorum): QuorumState {
    if |q.checks| > 0 && Majority(Voters(q.checks, q.state.incidentOpen, CheckState.Up), q.checks) then QuorumState.Up
    else if |q.checks| > 0 && Majority(Voters(q.checks, q.state.incidentOpen, CheckState.Down), q.checks) then QuorumState.Down
    else if q.state.lastStable == None then Pending
    else QuorumState.Error
  }

  predicate Stable(s: QuorumState) {
    s == QuorumState.Up || s == QuorumState.Down
  }

  /** The aggregate state once the tally is known: promotion, then the incident flag. */
  function Promoted(current: CheckQuorumState, tally: QuorumState): CheckQuorumState {
    var lastStable :=
      if Stable(tally) && (current.lastStable == Some(tally) || current.state == tally) then Some(tally)
      else current.lastStable;
    var incidentOpen :=
      if current.lastStable == Some(QuorumState.Up) && lastStable == Some(QuorumState.Down) then true
      else if current.lastStable == Some(QuorumState.Down) && lastStable == Some(QuorumState.Up) then false
      else current.incidentOpen;
    CheckQuorumState(tally, lastStable, incidentOpen)
  }

  function Recomputed(q: Quorum): Quorum {
    q.(state := Promoted(q.state, Tally(q)))
  }

  /** AddProbe: a new child joins with no evidence, and the quorum is recomputed. */
  function Joined(q: Quorum, p: ProbeId): Quorum {
    if p in q.checks then q else Recomputed(q.(checks := q.checks[p := NEW_CHECK]))
  }

  function ObservedBy(q: Quorum, p: ProbeId, up: bool, at: Time, expiresAt: Option<Time>): Quorum
    requires p in q.checks
  {
    Recomputed(q.(checks := q.checks[p := Observed(q.checks[p], up, at, expiresAt)]))
  }

  function LostBy(q: Quorum, p: ProbeId): Quorum
    requires p in q.checks
  {
    Recomputed(q.(checks := q.checks[p := Lost(q.checks[p])]))
  }

  /** The children once a change by p is taken back. */
  function Reverted(checks: Children, p: ProbeId, joined: bool, previous: CheckExecState): Children {
    if joined then checks - {p} else if p in checks then checks[p := previous] else checks
  }

  // ---- Votes ----------------------------------------------------------------------------

  lemma SubsetCardinality<T>(a: set<T>, b: set<T>)
    requires a <= b
    ensures |a| <= |b|
  {
    assert b == a + (b - a);
  }

  /** Up and down majorities exclude each other, whatever the number of assigned probes. */
  lemma MajoritiesExclude(checks: Children, open: bool, open': bool)
    ensures !(Majority(Voters(checks, open, CheckState.Up), checks) && Majority(Voters(checks, open', CheckState.Down), checks))
  {
    var ups, downs := Voters(checks, open, CheckState.Up), Voters(checks, open', CheckState.Down);
    assert ups !! downs;
    SubsetCardinality(ups + downs, checks.Keys);
  }

  /** An open incident can only take up votes away, and never touches down votes. */
  lemma GatingShrinksUpVotes(checks: Children)
    ensures Voters(checks, true, CheckState.Up) <= Voters(checks, false, CheckState.Up)
    ensures |Voters(checks, true, CheckState.Up)| <= |Voters(checks, false, CheckState.Up)|
    ensures Voters(checks, true, CheckState.Down) == Voters(checks, false, CheckState.Down)
  {
    SubsetCardinality(Voters(checks, true, CheckState.Up), Voters(checks, false, CheckState.Up));
  }

  // ---- What every recompute keeps ---------------------------------------------------------

  /** An incident is open only below a stable down state. */
  predicate Sound(s: CheckQuorumState) {
    && (s.lastStable.Some? ==> Stable(s.lastStable.value))
    && (s.incidentOpen ==> s.lastStable == Some(QuorumState.Down))
  }

  /** The aggregate state is what a further recompute would find again. */
  predicate Settled(q: Quorum) {
    q.state.state == Tally(q)
  }

  /** A promotion moves the gating of up votes, and still the state it reached is a fixpoint. */
  lemma RecomputeSettles(q: Quorum)
    requires Sound(q.state)
    ensures Sound(Recomputed(q).state)
    ensures Settled(Recomputed(q))
  {
    GatingShrinksUpVotes(q.checks);
    MajoritiesExclude(q.checks, q.state.incidentOpen, q.state.incidentOpen);
    MajoritiesExclude(q.checks, false, q.state.incidentOpen);
  }

  /** Two recomputes in a row reach a full fixpoint: a third one changes nothing. */
  lemma TwoRecomputesReachFixpoint(q: Quorum)
    requires Sound(q.state)
    ensures Recomputed(Recomputed(Recomputed(q))) == Recomputed(Recomputed(q))
  {
    RecomputeSettles(q);
    RecomputeSettles(Recomputed(q));
  }

  /** The stable state cannot flip at two recomputes in a row, even if the children change in between. */
  lemma NoDoubleFlip(q: Quorum, checks: Children)
    requires Recomputed(q).state.lastStable != q.state.lastStable
    ensures var r := Recomputed(q);
            Recomputed(r.(checks := checks)).state.lastStable == r.state.lastStable
  {
  }

  /** The incident flag turns on exactly when the stable state goes from up to down, and off exactly on the way back. */
  lemma FlagFollowsStableState(q: Quorum)
    requires Sound(q.state)
    ensures var r := Recomputed(q).state;
            && (!q.state.incidentOpen && r.incidentOpen <==>
                  q.state.lastStable == Some(QuorumState.Up) && r.lastStable == Some(QuorumState.Down))
            && (q.state.incidentOpen && !r.incidentOpen <==>
                  q.state.incidentOpen && q.state.lastStable == Some(QuorumState.Down) && r.lastStable == Some(QuorumState.Up))
  {
  }

  // ---- Evidence loss ----------------------------------------------------------------------

  lemma LossRemovesVote(checks: Children, p: ProbeId, open: bool, vote: CheckState)
    requires p in checks && vote != Missing
    ensures var after := checks[p := Lost(checks[p])];
            Voters(after, open, vote) == Voters(checks, open, vote) - {p} && |after| == |checks|
  {
    assert checks[p := Lost(checks[p])].Keys == checks.Keys;
  }

  /** The promotion an evidence loss by p would make: the majority is there and survives without p. */
  predicate LossPromotes(q: Quorum, p: ProbeId) {
    && Stable(q.state.state)
    && q.state.lastStable != Some(q.state.state)
    && var vote := if q.state.state == QuorumState.Up then CheckState.Up else CheckState.Down;
       Majority(Voters(q.checks, q.state.incidentOpen, vote) - {p}, q.checks)
  }

  /** Losing evidence never moves a quorum into up or down, and promotes exactly when LossPromotes. */
  lemma LossIsMonotone(q: Quorum, p: ProbeId)
    requires Sound(q.state) && Settled(q) && p in q.checks
    ensures var r := LostBy(q, p).state;
            && (Stable(r.state) ==> r.state == q.state.state)
            && (r.lastStable != q.state.lastStable <==> LossPromotes(q, p))
            && (LossPromotes(q, p) ==> r.lastStable == Some(q.state.state))
  {
    hide Voters, Contribution, Lost;
    var open := q.state.incidentOpen;
    LossRemovesVote(q.checks, p, open, CheckState.Up);
    LossRemovesVote(q.checks, p, open, CheckState.Down);
    SubsetCardinality(Voters(q.checks, open, CheckState.Up) - {p}, Voters(q.checks, open, CheckState.Up));
    SubsetCardinality(Voters(q.checks, open, CheckState.Down) - {p}, Voters(q.checks, open, CheckState.Down));
    MajoritiesExclude(q.checks, open, open);
  }

  /** Counts the votes of all assigned children, visited in any order. */
  method CountVotes(checks: Children, incidentOpen: bool) returns (upVotes: nat, downVotes: nat)
    ensures upVotes == |Voters(checks, incidentOpen, CheckState.Up)|
    ensures downVotes == |Voters(checks, incidentOpen, CheckState.Down)|
  {
    upVotes, downVotes := 0, 0;
    var rest := checks.Keys;
    ghost var ups, downs := Voters(checks, incidentOpen, CheckState.Up), Voters(checks, incidentOpen, CheckState.Down);
    assert ups - rest == {} && downs - rest == {};
    while rest != {}
      invariant rest <= checks.Keys
      invariant upVotes == |ups - rest| && downVotes == |downs - rest|
      decreases rest
    {
      var p :| p in rest;
      CountOne(ups, rest, p);
      CountOne(downs, rest, p);
      match Contribution(checks[p], incidentOpen) {
        case Up => upVotes := upVotes + 1;
        case Down => downVotes := downVotes + 1;
        case _ =>
      }
      rest := rest - {p};
    }
    assert ups - rest == ups && downs - rest == downs;
  }

  lemma CountOne(voters: set<ProbeId>, rest: set<ProbeId>, p: ProbeId)
    requires p in rest
    ensures |voters - (rest - {p})| == |voters - rest| + (if p in voters then 1 else 0)
  {
    assert voters - (rest - {p}) == if p in voters then (voters - rest) + {p} else voters - rest;
  }

  /** The state the counted votes call for, given the current aggregate state. */
  method Aggregate(checks: Children, current: CheckQuorumState) returns (tally: QuorumState)
    ensures tally == Tally(Quorum(current, checks))
  {
    var upVotes, downVotes := CountVotes(checks, current.incidentOpen);
    var required := Threshold(|checks|);
    if |checks| > 0 && upVotes >= required {
      tally := QuorumState.Up;
    } else if |checks| > 0 && downVotes >= required {
      tally := QuorumState.Down;
    } else if current.lastStable == None {
      tally := Pending;
    } else {
      tally := QuorumState.Error;
    }
  }

  // ---- The machine ------------------------------------------------------------------------

  class QuorumMachine {
    var state: CheckQuorumState
    var checks: map<ProbeId, CheckMachine>

    /** Distinct probes own distinct child machines. */
    ghost predicate Valid()
      reads this
    {
      forall p, r | p in checks && r in checks && p != r :: checks[p] != checks[r]
    }

    ghost function Children(): Children
      reads this, checks.Values
    {
      map p | p in checks :: checks[p].state
    }

    ghost function Value(): Quorum
      reads this, checks.Values
    {
      Quorum(state, Children())
    }

    constructor ()
      ensures Valid() && Value() == NEW_QUORUM && checks == map[]
    {
      state := NEW_QUORUM_STATE;
      checks := map[];
    }

    /** Derives the aggregate state from all assigned children, then promotes it and moves the incident flag. */
    method Recompute()
      modifies this`state
      ensures Value() == Recomputed(old(Value()))
    {
      var current := state;
      var tally := Aggregate(map p | p in checks :: checks[p].state, current);
      var next := current.(state := tally);
      if Stable(next.state) && (current.lastStable == Some(next.state) || current.state == next.state) {
        next := next.(lastStable := Some(next.state));
      }
      if current.lastStable == Some(QuorumState.Up) && next.lastStable == Some(QuorumState.Down) {
        next := next.(incidentOpen := true);
      } else if current.lastStable == Some(QuorumState.Down) && next.lastStable == Some(QuorumState.Up) {
        next := next.(incidentOpen := false);
      }
      state := next;
    }

    method AddProbe(p: ProbeId)
      requires Valid()
      modifies this
      ensures Valid() && Value() == Joined(old(Value()), p)
      ensures checks.Keys == old(checks.Keys) + {p}
      ensures forall r | r in old(checks) :: checks[r] == old(checks[r])
      ensures p !in old(checks) ==> fresh(checks[p])
    {
      hide Recomputed;
      if p in checks {
        return;
      }
      var child := new CheckMachine();
      checks := checks[p := child];
      assert Children() == old(Children())[p := NEW_CHECK];
      Recompute();
    }

    method ObserveUp(p: ProbeId, at: Time, expiresAt: Option<Time>) returns (known: bool)
      requires Valid()
      modifies this`state, checks.Values
      ensures Valid() && known == (p in checks)
      ensures Value() == if known then ObservedBy(old(Value()), p, true, at, expiresAt) else old(Value())
    {
      known := p in checks;
      if known {
        checks[p].ObserveUp(at, expiresAt);
        assert Children() == old(Children())[p := Observed(old(checks[p].state), true, at, expiresAt)];
        Recompute();
      }
    }

    method ObserveDown(p: ProbeId, at: Time, expiresAt: Option<Time>) returns (known: bool)
      requires Valid()
      modifies this`state, checks.Values
      ensures Valid() && known == (p in checks)
      ensures Value() == if known then ObservedBy(old(Value()), p, false, at, expiresAt) else old(Value())
    {
      known := p in checks;
      if known {
        checks[p].ObserveDown(at, expiresAt);
        assert Children() == old(Children())[p := Observed(old(checks[p].state), false, at, expiresAt)];
        Recompute();
      }
    }

    method LoseEvidence(p: ProbeId) returns (known: bool)
      requires Valid()
      modifies this`state, checks.Values
      ensures Valid() && known == (p in checks)
      ensures Value() == if known then LostBy(old(Value()), p) else old(Value())
    {
      known := p in checks;
      if known {
        checks[p].LoseEvidence();
        assert Children() == old(Children())[p := Lost(old(checks[p].state))];
        Recompute();
      }
    }

    /** Takes a change by p back. */
    method Revert(p: ProbeId, joined: bool, previous: CheckExecState, previousState: CheckQuorumState)
      requires Valid()
      modifies this, checks.Values
      ensures Valid() && Value() == Quorum(previousState, Reverted(old(Children()), p, joined, previous))
      ensures checks.Values <= old(checks.Values)
    {
      if joined {
        checks := checks - {p};
      } else if p in checks {
        checks[p].state := previous;
      }
      state := previousState;
      assert Children() == Reverted(old(Children()), p, joined, previous);
    }
  }
}
