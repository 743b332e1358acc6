/**
  Runs in which a probe sweep opens an incident in memory that the store never hears of: three probes
  a, b and d watch one check; a and b have just reached a down majority, which waits for its second
  recompute, when the heartbeat of d expires.
 */
module DriftExample {
  import opened MonitoringTypes
  import opened QuorumMachines
  import opened StoreTables
  import opened Results
  import opened Recovery
  import opened MonitoringRuns
  import opened RunInvariants
  import opened Agreement
  import opened ThreeProbes

  /** a up, a up, d up, b down, b down, a down, a down. */
  function ItemAt(s: Scenario, k: nat): ObservedResult {
    var p := if k == 2 then s.d else if k == 3 || k == 4 then s.b else s.a;
    ObservedResult(s.check, p, k < 3, k + 1)
  }

  /** d saw one up, at time 3. */
  function WithD(s: Scenario, a: CheckExecState, b: CheckExecState): Children {
    Trio(s, a, b, Saw(s, true, 1, 3))
  }

  /** The quorum before the k-th result. */
  function QuorumAt(s: Scenario, k: nat): Quorum {
    var up := CheckQuorumState(QuorumState.Up, Some(QuorumState.Up), false);
    match k
    case 0 => NEW_QUORUM
    case 1 => Quorum(up.(lastStable := None), map[s.a := Saw(s, true, 1, 1)])
    case 2 => Quorum(up, map[s.a := Saw(s, true, 2, 2)])
    case 3 => Quorum(up, map[s.a := Saw(s, true, 2, 2), s.d := Saw(s, true, 1, 3)])
    case 4 => Quorum(up, WithD(s, Saw(s, true, 2, 2), Saw(s, false, 1, 4)))
    case 5 => Quorum(up, WithD(s, Saw(s, true, 2, 2), Saw(s, false, 2, 5)))
    case 6 => Quorum(up.(state := QuorumState.Error), WithD(s, Saw(s, false, 1, 6), Saw(s, false, 2, 5)))
    case _ => Quorum(up.(state := QuorumState.Down), WithD(s, Saw(s, false, 2, 7), Saw(s, false, 2, 5)))
  }

  function Next(s: Scenario, k: nat): Quorum {
    var item := ItemAt(s, k);
    Reported(QuorumAt(s, k), item.probe, item.up, item.at, EvidenceExpiresAt(s.check, item.at))
  }

  lemma Step0(s: Scenario)
    requires Fits(s)
    ensures Next(s, 0) == QuorumAt(s, 1)
  {
    Recompute(Quorum(NEW_QUORUM_STATE, map[s.a := NEW_CHECK]), {}, {}, 1);
    var j, r := Joined(NEW_QUORUM, s.a), QuorumAt(s, 1);
    assert j.checks[s.a := Saw(s, true, 1, 1)] == r.checks;
    Recompute(j.(checks := r.checks), {s.a}, {}, 1);
  }

  lemma Step1(s: Scenario)
    requires Fits(s)
    ensures Next(s, 1) == QuorumAt(s, 2)
  {
    var q, r := QuorumAt(s, 1), QuorumAt(s, 2);
    assert q.checks[s.a := Saw(s, true, 2, 2)] == r.checks;
    Recompute(q.(checks := r.checks), {s.a}, {}, 1);
  }

  lemma Step2(s: Scenario)
    requires Fits(s)
    ensures Next(s, 2) == QuorumAt(s, 3)
  {
    var q, r := QuorumAt(s, 2), QuorumAt(s, 3);
    Recompute(q.(checks := q.checks[s.d := NEW_CHECK]), {s.a}, {}, 2);
    var j := Joined(q, s.d);
    assert j.checks[s.d := Saw(s, true, 1, 3)] == r.checks;
    Recompute(j.(checks := r.checks), {s.a, s.d}, {}, 2);
  }

  lemma Step3(s: Scenario)
    requires Fits(s)
    ensures Next(s, 3) == QuorumAt(s, 4)
  {
    hide Tally, Voters, Recomputed;
    var q, a, b, d := QuorumAt(s, 3), Saw(s, true, 2, 2), Saw(s, false, 1, 4), Saw(s, true, 1, 3);
    assert q.checks[s.b := NEW_CHECK] == Trio(s, a, NEW_CHECK, d);
    RecomputeTrio(s, q.state, a, NEW_CHECK, d);
    assert Trio(s, a, NEW_CHECK, d)[s.b := b] == Trio(s, a, b, d);
    RecomputeTrio(s, q.state, a, b, d);
  }

  lemma Step4(s: Scenario)
    requires Fits(s)
    ensures Next(s, 4) == QuorumAt(s, 5)
  {
    var q, r := QuorumAt(s, 4), QuorumAt(s, 5);
    assert q.checks[s.b := Saw(s, false, 2, 5)] == r.checks;
    RecomputeTrio(s, q.state, Saw(s, true, 2, 2), Saw(s, false, 2, 5), Saw(s, true, 1, 3));
  }

  lemma Step5(s: Scenario)
    requires Fits(s)
    ensures Next(s, 5) == QuorumAt(s, 6)
  {
    var q, r := QuorumAt(s, 5), QuorumAt(s, 6);
    assert q.checks[s.a := Saw(s, false, 1, 6)] == r.checks;
    RecomputeTrio(s, q.state, Saw(s, false, 1, 6), Saw(s, false, 2, 5), Saw(s, true, 1, 3));
  }

  lemma Step6(s: Scenario)
    requires Fits(s)
    ensures Next(s, 6) == QuorumAt(s, 7)
  {
    var q, r := QuorumAt(s, 6), QuorumAt(s, 7);
    assert q.checks[s.a := Saw(s, false, 2, 7)] == r.checks;
    RecomputeTrio(s, q.state, Saw(s, false, 2, 7), Saw(s, false, 2, 5), Saw(s, true, 1, 3));
  }

  lemma LastDrifts(s: Scenario)
    requires Fits(s)
    ensures Drifts(QuorumAt(s, 7), s.d)
  {
    var q := QuorumAt(s, 7);
    assert q.checks.Keys == {s.a, s.b, s.d};
    assert Voters(q.checks, false, CheckState.Down) - {s.d} == {s.a, s.b};
  }

  lemma StepOf(s: Scenario, k: nat)
    requires Fits(s) && k < 7
    ensures Next(s, k) == QuorumAt(s, k + 1)
  {
    if k == 0 { Step0(s); } else if k == 1 { Step1(s); } else if k == 2 { Step2(s); } else if k == 3 { Step3(s); }
    else if k == 4 { Step4(s); } else if k == 5 { Step5(s); } else { Step6(s); }
  }

  // ---- The run ------------------------------------------------------------------------------------

  /** The run up to the k-th result. */
  function Prefix(s: Scenario, k: nat): seq<Action> {
    if k == 0 then Setup(s) else Prefix(s, k - 1) + [ResultBatch([ItemAt(s, k - 1)], k, true)]
  }

  ghost predicate Reached(s: Scenario, w: World, k: nat) {
    && Active(w.db, s.check.id) && QuorumOf(w.rt, s.check.id) == QuorumAt(s, k)
    && w.rt.probes.Keys == {s.a, s.b, s.d} && w.rt.probes[s.d] == ProbeRuntimeState(Online, Some(0))
  }

  lemma ResultReaches(s: Scenario, w: World, k: nat)
    requires Fits(s) && k < 7 && Reached(s, w, k)
    ensures Reached(s, CommitItem(w, ItemAt(s, k), k + 1), k + 1)
  {
    StepOf(s, k);
    PersistTouches(w.db, ApplyItem(w.rt, ItemAt(s, k)).write, k + 1);
  }

  lemma BatchReaches(s: Scenario, w: World, k: nat)
    requires Fits(s) && k < 7 && Reached(s, w, k)
    ensures Reached(s, Do(w, ResultBatch([ItemAt(s, k)], k + 1, true)), k + 1)
  {
    ResultReaches(s, w, k);
    assert ItemAt(s, k).probe in w.rt.probes;
    hide CommitItem, QuorumAt, QuorumOf;
    BatchOfOne(w, ItemAt(s, k), k + 1);
  }

  lemma StartReaches(s: Scenario)
    requires Fits(s)
    ensures Reached(s, Exec(INITIAL, Setup(s)), 0)
  {
    hide Recovered, RestartedLogs, QuorumOf;
    var db := SetupDb(s);
    SetupRuns(s, INITIAL, db);
    SetupReaches(s, db);
  }

  lemma {:induction false} PrefixReaches(s: Scenario, k: nat)
    requires Fits(s) && k <= 7
    ensures Reached(s, Exec(INITIAL, Prefix(s, k)), k)
  {
    hide Reached, Do, ItemAt, Fits, Setup;
    if k == 0 {
      StartReaches(s);
    } else {
      PrefixReaches(s, k - 1);
      ExecSnoc(INITIAL, Prefix(s, k - 1), ResultBatch([ItemAt(s, k - 1)], k, true));
      BatchReaches(s, Exec(INITIAL, Prefix(s, k - 1)), k - 1);
    }
  }

  lemma {:induction false} PrefixHasNoSweep(s: Scenario, k: nat)
    ensures forall i | 0 <= i < |Prefix(s, k)| :: !Prefix(s, k)[i].ExpireProbe?
  {
    if k > 0 {
      PrefixHasNoSweep(s, k - 1);
    }
  }

  lemma PrefixAgrees(s: Scenario)
    ensures Agrees(Exec(INITIAL, Prefix(s, 7))) && Consistent(Exec(INITIAL, Prefix(s, 7)))
  {
    PrefixHasNoSweep(s, 7);
    MemoryAndStoreAgree(Prefix(s, 7));
  }

  lemma SweepDrifts(s: Scenario, w: World)
    requires Fits(s) && Consistent(w) && Agrees(w) && Reached(s, w, 7)
    ensures !Agrees(Expiring(w, s.d, 8, 5))
  {
    LastDrifts(s);
    ExpiryKeepsAgreementIff(w, s.d, 8, 5);
  }

  /** Before the sweep memory and store agree; after it they do not. */
  lemma ProbeSweepCanDrift(s: Scenario)
    requires Fits(s)
    ensures var w := Exec(INITIAL, Prefix(s, 7));
            Agrees(w) && !Agrees(Do(w, ExpireProbe(s.d, 8, 5)))
  {
    PrefixAgrees(s);
    PrefixReaches(s, 7);
    SweepDrifts(s, Exec(INITIAL, Prefix(s, 7)));
  }
}
