/**
  Three probes a, b and d that watch one check: what the runs of the examples share. The scenario is arbitrary,
  so that each example is a family of runs.
 */
module ThreeProbes {
  import opened MonitoringTypes
  import opened QuorumMachines
  import opened StoreTables
  import opened NotificationLifecycle
  import opened Results
  import opened Recovery
  import opened MonitoringRuns

  datatype Scenario = Scenario(check: CheckDef, a: ProbeId, b: ProbeId, d: ProbeId)

  predicate Fits(s: Scenario) {
    s.check.id != NoCheck && s.a != NoProbe && s.b != NoProbe && s.d != NoProbe && s.a != s.b && s.a != s.d && s.b != s.d
  }

  function Saw(s: Scenario, up: bool, streak: nat, at: Time): CheckExecState {
    var outcome := if up then CheckState.Up else CheckState.Down;
    CheckExecState(at, Some(outcome), streak, EvidenceExpiresAt(s.check, at), if streak < 2 then Missing else outcome)
  }

  function Trio(s: Scenario, a: CheckExecState, b: CheckExecState, d: CheckExecState): Children {
    map[s.a := a, s.b := b, s.d := d]
  }

  /** A recompute whose voters are known. */
  lemma Recompute(q: Quorum, ups: set<ProbeId>, downs: set<ProbeId>, n: nat)
    requires !q.state.incidentOpen && n == |q.checks| > 0
    requires ups == Voters(q.checks, false, CheckState.Up) && downs == Voters(q.checks, false, CheckState.Down)
    ensures Recomputed(q) == q.(state := Promoted(q.state,
              if |ups| >= n / 2 + 1 then QuorumState.Up else if |downs| >= n / 2 + 1 then QuorumState.Down
              else if q.state.lastStable == None then QuorumState.Pending else QuorumState.Error))
  {
  }

  function Only(p: ProbeId, votes: bool): set<ProbeId> {
    if votes then {p} else {}
  }

  lemma TrioHasThree(s: Scenario, a: CheckExecState, b: CheckExecState, d: CheckExecState)
    requires Fits(s)
    ensures |Trio(s, a, b, d)| == 3
  {
    assert Trio(s, a, b, d).Keys == {s.a, s.b, s.d};
  }

  lemma TrioVotes(s: Scenario, a: CheckExecState, b: CheckExecState, d: CheckExecState, vote: CheckState)
    requires Fits(s) && vote != Missing
    ensures Voters(Trio(s, a, b, d), false, vote) ==
            Only(s.a, Contribution(a, false) == vote) + Only(s.b, Contribution(b, false) == vote)
            + Only(s.d, Contribution(d, false) == vote)
  {
    var t := Trio(s, a, b, d);
    assert t[s.a] == a && t[s.b] == b && t[s.d] == d;
  }

  /** The tally of three votes. */
  function TallyOf(lastStable: Option<QuorumState>, a: CheckState, b: CheckState, d: CheckState): QuorumState {
    if (a == b == CheckState.Up) || (a == d == CheckState.Up) || (b == d == CheckState.Up) then QuorumState.Up
    else if (a == b == CheckState.Down) || (a == d == CheckState.Down) || (b == d == CheckState.Down) then QuorumState.Down
    else if lastStable == None then QuorumState.Pending
    else QuorumState.Error
  }

  /** A recompute over all three probes. */
  lemma RecomputeTrio(s: Scenario, state: CheckQuorumState, a: CheckExecState, b: CheckExecState, d: CheckExecState)
    requires Fits(s) && !state.incidentOpen
    ensures var tally := TallyOf(state.lastStable, Contribution(a, false), Contribution(b, false), Contribution(d, false));
            Recomputed(Quorum(state, Trio(s, a, b, d))) == Quorum(Promoted(state, tally), Trio(s, a, b, d))
  {
    hide Contribution;
    TrioHasThree(s, a, b, d);
    TrioVotes(s, a, b, d, CheckState.Up);
    TrioVotes(s, a, b, d, CheckState.Down);
    hide Voters;
  }

  // ---- The beginning of a run -----------------------------------------------------------------------

  function Setup(s: Scenario): seq<Action> {
    [Transaction(Create(s.check.id)), Transaction(SetProbes(map[s.a := Some(0), s.b := Some(0), s.d := Some(0)])), Restart]
  }

  function SetupDb(s: Scenario): Db {
    EMPTY_DB.(checks := map[s.check.id := true], probes := map[s.a := Some(0), s.b := Some(0), s.d := Some(0)])
  }

  lemma TransactionRuns(w: World, t: StoreStep)
    requires !t.Upsert? && !t.Open? && !t.Resolve? && t != Create(NoCheck)
    ensures Do(w, Transaction(t)) == w.(db := Apply(w.db, t))
  {
  }

  lemma SetupRuns(s: Scenario, w: World, db: Db)
    requires Fits(s) && w.db == EMPTY_DB && db == SetupDb(s)
    ensures Exec(w, Setup(s)) == Do(w.(db := db), Restart)
  {
    var c, p := Create(s.check.id), SetProbes(db.probes);
    var w1 := w.(db := Apply(w.db, c));
    TransactionRuns(w, c);
    TransactionRuns(w1, p);
    var w2 := w1.(db := Apply(w1.db, p));
    assert Do(Do(w, Transaction(c)), Transaction(p)) == w2;
    assert w2.db == db;
    assert w2 == w.(db := db);
    RunOfThree(w, Transaction(c), Transaction(p), Restart);
    assert Setup(s) == [Transaction(c), Transaction(p), Restart];
  }

  lemma RunOfThree(w: World, a: Action, b: Action, c: Action)
    ensures Exec(w, [a, b, c]) == Do(Do(Do(w, a), b), c)
  {
    ExecSnoc(w, [], a);
    ExecSnoc(w, [a], b);
    ExecSnoc(w, [a, b], c);
    assert [] + [a] == [a] && [a] + [b] == [a, b] && [a, b] + [c] == [a, b, c];
  }

  lemma EmptyRecovery()
    ensures RecoveredQuorum(map[], false) == NEW_QUORUM
  {
  }

  lemma SetupReaches(s: Scenario, db: Db)
    requires Fits(s) && db == SetupDb(s)
    ensures var rt := Recovered(db);
            && QuorumOf(rt, s.check.id) == NEW_QUORUM
            && rt.probes.Keys == {s.a, s.b, s.d} && rt.probes[s.d] == ProbeRuntimeState(Online, Some(0))
  {
    hide Recovered;
    assert db.probes.Keys == {s.a, s.b, s.d} && db.probes[s.d] == Some(0);
    EmptyDbRecovers(db, s.check.id);
    ProbesRecover(db);
  }

  lemma EmptyDbRecovers(db: Db, c: CheckId)
    requires db.rows == map[] && db.incidents == []
    ensures QuorumOf(Recovered(db), c) == NEW_QUORUM
  {
    hide RecoveredQuorum;
    EmptyRecovery();
    assert RecoveredChildren(db, c) == map[];
  }

  lemma ProbesRecover(db: Db)
    requires NoProbe !in db.probes
    ensures Recovered(db).probes.Keys == db.probes.Keys
    ensures forall p | p in db.probes :: Recovered(db).probes[p] == RecoveredProbe(db.probes[p])
  {
    hide RecoveredQuorum, RecoveredChildren, HasOpen;
  }
}
