/**
  Runs in which a restart revives a vote and an incident opens without the evidence for it: d reports down and its
  heartbeat expires, which clears the vote in memory only; a restart reloads it; and after the check was stably up,
  one more down of d counts as its second in a row, though the loss lies between them.
 */
module RevivalExample {
  import opened MonitoringTypes
  import opened CheckMachines
  import opened QuorumMachines
  import opened EvidenceTrails
  import opened StoreTables
  import opened NotificationLifecycle
  import opened Results
  import opened Recovery
  import opened MonitoringRuns
  import opened RunInvariants
  import opened EvidenceLogs
  import opened Agreement
  import opened ThreeProbes

  /** The result before the restart: d down. */
  function FirstItem(s: Scenario): ObservedResult {
    ObservedResult(s.check, s.d, false, 1)
  }

  /** The results after it: a up, b up, d down, a down, a down, b up. */
  function ItemAt(s: Scenario, k: nat): ObservedResult {
    var p := if k == 2 then s.d else if k == 1 || k == 5 then s.b else s.a;
    ObservedResult(s.check, p, k < 2 || k == 5, k + 9)
  }

  /** The quorum before the k-th of them. */
  function QuorumAt(s: Scenario, k: nat): Quorum {
    var up := CheckQuorumState(QuorumState.Up, Some(QuorumState.Up), false);
    var a, b, d := Saw(s, true, 1, 9), Saw(s, true, 1, 10), Saw(s, false, 1, 1);
    match k
    case 0 => Quorum(NEW_QUORUM_STATE, map[s.d := d])
    case 1 => Quorum(NEW_QUORUM_STATE, map[s.d := d, s.a := a])
    case 2 => Quorum(up.(lastStable := None), Trio(s, a, b, d))
    case 3 => Quorum(up, Trio(s, a, b, Saw(s, false, 2, 11)))
    case 4 => Quorum(up.(state := QuorumState.Error), Trio(s, Saw(s, false, 1, 12), b, Saw(s, false, 2, 11)))
    case 5 => Quorum(up.(state := QuorumState.Down), Trio(s, Saw(s, false, 2, 13), b, Saw(s, false, 2, 11)))
    case _ =>
      Quorum(CheckQuorumState(QuorumState.Down, Some(QuorumState.Down), true),
             Trio(s, Saw(s, false, 2, 13), Saw(s, true, 2, 14), Saw(s, false, 2, 11)))
  }

  function Next(s: Scenario, k: nat): Quorum {
    var item := ItemAt(s, k);
    Reported(QuorumAt(s, k), item.probe, item.up, item.at, EvidenceExpiresAt(s.check, item.at))
  }

  lemma Step0(s: Scenario)
    requires Fits(s)
    ensures Next(s, 0) == QuorumAt(s, 1)
  {
    var q, r := QuorumAt(s, 0), QuorumAt(s, 1);
    Recompute(q.(checks := q.checks[s.a := NEW_CHECK]), {}, {}, 2);
    var j := Joined(q, s.a);
    assert j.checks[s.a := Saw(s, true, 1, 9)] == r.checks;
    Recompute(j.(checks := r.checks), {s.a}, {}, 2);
  }

  lemma Step1(s: Scenario)
    requires Fits(s)
    ensures Next(s, 1) == QuorumAt(s, 2)
  {
    hide Tally, Voters, Recomputed;
    var q, a, b, d := QuorumAt(s, 1), Saw(s, true, 1, 9), Saw(s, true, 1, 10), Saw(s, false, 1, 1);
    assert q.checks[s.b := NEW_CHECK] == Trio(s, a, NEW_CHECK, d);
    RecomputeTrio(s, q.state, a, NEW_CHECK, d);
    assert Trio(s, a, NEW_CHECK, d)[s.b := b] == Trio(s, a, b, d);
    RecomputeTrio(s, q.state, a, b, d);
  }

  lemma Step2(s: Scenario)
    requires Fits(s)
    ensures Next(s, 2) == QuorumAt(s, 3)
  {
    var q, r := QuorumAt(s, 2), QuorumAt(s, 3);
    assert q.checks[s.d := Saw(s, false, 2, 11)] == r.checks;
    RecomputeTrio(s, q.state, Saw(s, true, 1, 9), Saw(s, true, 1, 10), Saw(s, false, 2, 11));
  }

  lemma Step3(s: Scenario)
    requires Fits(s)
    ensures Next(s, 3) == QuorumAt(s, 4)
  {
    var q, r := QuorumAt(s, 3), QuorumAt(s, 4);
    assert q.checks[s.a := Saw(s, false, 1, 12)] == r.checks;
    RecomputeTrio(s, q.state, Saw(s, false, 1, 12), Saw(s, true, 1, 10), Saw(s, false, 2, 11));
  }

  lemma Step4(s: Scenario)
    requires Fits(s)
    ensures Next(s, 4) == QuorumAt(s, 5)
  {
    var q, r := QuorumAt(s, 4), QuorumAt(s, 5);
    assert q.checks[s.a := Saw(s, false, 2, 13)] == r.checks;
    RecomputeTrio(s, q.state, Saw(s, false, 2, 13), Saw(s, true, 1, 10), Saw(s, false, 2, 11));
  }

  lemma Step5(s: Scenario)
    requires Fits(s)
    ensures Next(s, 5) == QuorumAt(s, 6)
  {
    var q, r := QuorumAt(s, 5), QuorumAt(s, 6);
    assert q.checks[s.b := Saw(s, true, 2, 14)] == r.checks;
    RecomputeTrio(s, q.state, Saw(s, false, 2, 13), Saw(s, true, 2, 14), Saw(s, false, 2, 11));
  }

  lemma StepOf(s: Scenario, k: nat)
    requires Fits(s) && k < 6
    ensures Next(s, k) == QuorumAt(s, k + 1)
  {
    if k == 0 { Step0(s); } else if k == 1 { Step1(s); } else if k == 2 { Step2(s); }
    else if k == 3 { Step3(s); } else if k == 4 { Step4(s); } else { Step5(s); }
  }

  lemma FirstStep(s: Scenario)
    requires Fits(s)
    ensures Reported(NEW_QUORUM, s.d, false, 1, EvidenceExpiresAt(s.check, 1)) == QuorumAt(s, 0)
    ensures RecoveredQuorum(map[s.d := Saw(s, false, 1, 1)], false) == QuorumAt(s, 0)
  {
    Recompute(Quorum(NEW_QUORUM_STATE, map[s.d := NEW_CHECK]), {}, {}, 1);
    var j, r := Joined(NEW_QUORUM, s.d), QuorumAt(s, 0);
    assert j.checks[s.d := Saw(s, false, 1, 1)] == r.checks;
    Recompute(j.(checks := r.checks), {}, {}, 1);
    Recompute(Quorum(NEW_QUORUM_STATE, r.checks), {}, {}, 1);
  }

  // ---- Up to the restart ------------------------------------------------------------------------------------

  /** The store from the first result on, up to the restart. */
  function RowDb(s: Scenario): Db {
    SetupDb(s).(rows := map[(s.check.id, s.d) := Saw(s, false, 1, 1)])
  }

  function Known(s: Scenario): set<ProbeId> {
    {s.a, s.b, s.d}
  }

  lemma FirstResult(s: Scenario, w: World)
    requires Fits(s) && w.db == SetupDb(s) && QuorumOf(w.rt, s.check.id) == NEW_QUORUM
    ensures var w' := CommitItem(w, FirstItem(s), 1);
            && w'.db == RowDb(s) && w'.rt.probes == w.rt.probes
            && s.check.id in w'.rt.quorums && w'.rt.quorums[s.check.id] == QuorumAt(s, 0)
  {
    FirstStep(s);
    hide Reported, Recomputed;
    var write := ApplyItem(w.rt, FirstItem(s)).write;
    assert write == MonitoringWrite(CheckStateWrite(s.check.id, s.d, Saw(s, false, 1, 1)), None);
    assert EvidenceExpiresAt(s.check, 1) > 0;
    assert PersistWrite(w.db, write, 1).rows == RowDb(s).rows;
  }

  /** What the restart makes of the row. */
  lemma RowReloads(s: Scenario, db: Db)
    requires Fits(s) && db == RowDb(s)
    ensures var rt := Recovered(db);
            && rt.probes.Keys == Known(s) && s.check.id in rt.quorums && rt.quorums[s.check.id] == QuorumAt(s, 0)
            && Reloads(db, s.check.id, s.d) && Assigned(rt.quorums, s.check.id) == {s.d}
  {
    FirstStep(s);
    assert QuorumAt(s, 0).checks.Keys == {s.d};
    hide RecoveredQuorum, QuorumAt;
    assert db.probes.Keys == Known(s) && db.probes[s.d] == Some(0);
    assert db.rows.Keys == {(s.check.id, s.d)};
    assert RecoveredChildren(db, s.check.id) == map[s.d := Saw(s, false, 1, 1)];
    assert !HasOpen(db, s.check.id);
  }

  ghost predicate LogsAre(s: Scenario, w: World, a: seq<Event>, b: seq<Event>, d: seq<Event>) {
    LogAt(w, s.check.id, s.a) == a && LogAt(w, s.check.id, s.b) == b && LogAt(w, s.check.id, s.d) == d
  }

  /** After the setup, before the first result. */
  ghost predicate Ready(s: Scenario, w: World) {
    && w.db == SetupDb(s) && QuorumOf(w.rt, s.check.id) == NEW_QUORUM
    && w.rt.probes.Keys == Known(s) && w.rt.probes[s.d] == ProbeRuntimeState(Online, Some(0))
    && LogsAre(s, w, [], [], [])
  }

  /** After the first result. */
  ghost predicate SawOne(s: Scenario, w: World) {
    && w.db == RowDb(s) && s.check.id in w.rt.quorums && w.rt.quorums[s.check.id] == QuorumAt(s, 0)
    && w.rt.probes.Keys == Known(s) && w.rt.probes[s.d] == ProbeRuntimeState(Online, Some(0))
    && LogsAre(s, w, [], [], [SawDown])
  }

  /** After the expiry of d: its vote is gone from memory, but not from its row. */
  ghost predicate SweptD(s: Scenario, w: World) {
    && w.db == RowDb(s) && Revives(w, s.check.id, s.d) && Assigned(w.rt.quorums, s.check.id) == {s.d}
    && LogsAre(s, w, [], [], [SawDown, LostEvidence])
  }

  function LogOfA(k: nat): seq<Event> {
    if k < 1 then [] else if k < 4 then [SawUp] else if k < 5 then [SawUp, SawDown] else [SawUp, SawDown, SawDown]
  }

  function LogOfB(k: nat): seq<Event> {
    if k < 2 then [] else if k < 6 then [SawUp] else [SawUp, SawUp]
  }

  function LogOfD(k: nat): seq<Event> {
    if k < 3 then [SawDown, LostEvidence] else [SawDown, LostEvidence, SawDown]
  }

  /** Before the k-th result after the restart. */
  ghost predicate Reached(s: Scenario, w: World, k: nat) {
    && Active(w.db, s.check.id) && w.rt.probes.Keys == Known(s)
    && s.check.id in w.rt.quorums && w.rt.quorums[s.check.id] == QuorumAt(s, k)
    && LogsAre(s, w, LogOfA(k), LogOfB(k), LogOfD(k))
  }

  lemma NoLogsYet(s: Scenario, w: World)
    requires Fits(s) && w.db == SetupDb(s) && w.log == map[] && w.rt.quorums == map[]
    requires QuorumOf(Recovered(w.db), s.check.id) == NEW_QUORUM
    ensures LogsAre(s, Restarting(w), [], [], [])
  {
    var c := s.check.id;
    RestartIsLogged(w, c, s.a);
    RestartIsLogged(w, c, s.b);
    RestartIsLogged(w, c, s.d);
    hide Restarting, Recovered;
  }

  lemma SetupIsReady(s: Scenario)
    requires Fits(s)
    ensures Ready(s, Exec(INITIAL, Setup(s)))
  {
    hide Recovered, RestartedLogs, QuorumOf, LogsAre;
    var w0 := INITIAL.(db := SetupDb(s));
    SetupRuns(s, INITIAL, w0.db);
    SetupReaches(s, w0.db);
    NoLogsYet(s, w0);
  }

  lemma FirstResultReaches(s: Scenario, w: World)
    requires Fits(s) && Ready(s, w) && QuorumsTraced(w)
    ensures SawOne(s, Do(w, ResultBatch([FirstItem(s)], 1, true)))
  {
    hide QuorumsTraced, CommitItem, QuorumAt;
    var c := s.check.id;
    BatchOfOne(w, FirstItem(s), 1);
    FirstResult(s, w);
    ItemIsLogged(w, FirstItem(s), 1, c, s.a);
    ItemIsLogged(w, FirstItem(s), 1, c, s.b);
    ItemIsLogged(w, FirstItem(s), 1, c, s.d);
    hide Do, LogAt;
  }

  lemma ExpiryOnD(s: Scenario, w: World)
    requires Fits(s) && SawOne(s, w)
    ensures var w' := Expiring(w, s.d, 8, 5);
            && w'.db == w.db && s.check.id in w'.rt.quorums
            && w'.rt.quorums[s.check.id].checks == map[s.d := Lost(Saw(s, false, 1, 1))]
  {
    hide Tally, LogsAre, Now, Losing;
  }

  lemma ExpiryReaches(s: Scenario, w: World)
    requires Fits(s) && SawOne(s, w) && QuorumsTraced(w)
    ensures SweptD(s, Do(w, ExpireProbe(s.d, 8, 5)))
  {
    hide QuorumsTraced, Expiring;
    var c := s.check.id;
    ExpiryOnD(s, w);
    ExpiryIsLogged(w, s.d, 8, 5, c, s.a);
    ExpiryIsLogged(w, s.d, 8, 5, c, s.b);
    ExpiryIsLogged(w, s.d, 8, 5, c, s.d);
    RowReloads(s, w.db);
    assert w.rt.quorums[c].checks.Keys == {s.d};
    hide LogAt, Recovered, Reloads;
  }

  /** The restart reloads d and logs nothing. */
  lemma RestartLogs(s: Scenario, w: World)
    requires Fits(s) && LogsAre(s, w, [], [], [SawDown, LostEvidence]) && Assigned(w.rt.quorums, s.check.id) == {s.d}
    requires Assigned(Recovered(w.db).quorums, s.check.id) == {s.d} && Reloads(w.db, s.check.id, s.d)
    ensures LogsAre(s, Restarting(w), [], [], [SawDown, LostEvidence])
  {
    hide Recovered, Reloads, LogAt, Restarting, Assigned;
    RestartIsLogged(w, s.check.id, s.a);
    RestartIsLogged(w, s.check.id, s.b);
    RestartIsLogged(w, s.check.id, s.d);
  }

  lemma ReloadsIsActive(db: Db, c: CheckId, p: ProbeId)
    requires Reloads(db, c, p)
    ensures Active(db, c)
  {
  }

  lemma RestartReaches(s: Scenario, w: World)
    requires Fits(s) && SweptD(s, w)
    ensures Reached(s, Do(w, Restart), 0)
  {
    hide Recovered, Reloads, LogsAre, RestartedLogs, QuorumAt, Revives, RowDb;
    RowReloads(s, w.db);
    assert Active(w.db, s.check.id) by {
      ReloadsIsActive(w.db, s.check.id, s.d);
    }
    RestartLogs(s, w);
  }

  /** Each result is logged for its own probe. */
  lemma ResultLogs(s: Scenario, w: World, k: nat)
    requires Fits(s) && k < 6 && QuorumsTraced(w) && LogsAre(s, w, LogOfA(k), LogOfB(k), LogOfD(k))
    ensures LogsAre(s, CommitItem(w, ItemAt(s, k), k + 9), LogOfA(k + 1), LogOfB(k + 1), LogOfD(k + 1))
  {
    hide QuorumsTraced, CommitItem, LogAt;
    ItemIsLogged(w, ItemAt(s, k), k + 9, s.check.id, s.a);
    ItemIsLogged(w, ItemAt(s, k), k + 9, s.check.id, s.b);
    ItemIsLogged(w, ItemAt(s, k), k + 9, s.check.id, s.d);
  }

  lemma ResultReaches(s: Scenario, w: World, k: nat)
    requires Fits(s) && k < 6 && Reached(s, w, k) && QuorumsTraced(w)
    ensures Reached(s, Do(w, ResultBatch([ItemAt(s, k)], k + 9, true)), k + 1)
  {
    hide QuorumsTraced, LogsAre, Reported, QuorumAt, PersistWrite;
    StepOf(s, k);
    BatchOfOne(w, ItemAt(s, k), k + 9);
    ResultLogs(s, w, k);
    PersistTouches(w.db, ApplyItem(w.rt, ItemAt(s, k)).write, k + 9);
    hide Do;
  }

  // ---- The run ------------------------------------------------------------------------------------------------

  function Beginning(s: Scenario): seq<Action> {
    Setup(s) + [ResultBatch([FirstItem(s)], 1, true)] + [ExpireProbe(s.d, 8, 5)]
  }

  /** The run up to the k-th result after the restart. */
  function Prefix(s: Scenario, k: nat): seq<Action> {
    if k == 0 then Beginning(s) + [Restart] else Prefix(s, k - 1) + [ResultBatch([ItemAt(s, k - 1)], k + 8, true)]
  }

  lemma RunIsTraced(actions: seq<Action>)
    ensures QuorumsTraced(Exec(INITIAL, actions)) && IncidentsOk(Exec(INITIAL, actions).db)
  {
    RunKeepsConsistent(actions);
  }

  lemma BeginningReaches(s: Scenario)
    requires Fits(s)
    ensures SweptD(s, Exec(INITIAL, Beginning(s)))
  {
    hide SweptD, Do, Ready, SawOne, QuorumsTraced, IncidentsOk, Setup;
    var two := Setup(s) + [ResultBatch([FirstItem(s)], 1, true)];
    SetupIsReady(s);
    RunIsTraced(Setup(s));
    RunIsTraced(two);
    ExecSnoc(INITIAL, Setup(s), ResultBatch([FirstItem(s)], 1, true));
    FirstResultReaches(s, Exec(INITIAL, Setup(s)));
    ExecSnoc(INITIAL, two, ExpireProbe(s.d, 8, 5));
    ExpiryReaches(s, Exec(INITIAL, two));
  }

  lemma {:induction false} PrefixReaches(s: Scenario, k: nat)
    requires Fits(s) && k <= 6
    ensures Reached(s, Exec(INITIAL, Prefix(s, k)), k)
  {
    hide SweptD, Do, Reached, QuorumsTraced, IncidentsOk, Beginning;
    if k == 0 {
      BeginningReaches(s);
      ExecSnoc(INITIAL, Beginning(s), Restart);
      RestartReaches(s, Exec(INITIAL, Beginning(s)));
    } else {
      PrefixReaches(s, k - 1);
      RunIsTraced(Prefix(s, k - 1));
      ExecSnoc(INITIAL, Prefix(s, k - 1), ResultBatch([ItemAt(s, k - 1)], k + 8, true));
      ResultReaches(s, Exec(INITIAL, Prefix(s, k - 1)), k - 1);
    }
  }

  /** The log of d has a loss between its downs, so one probe of three has two downs in a row. */
  lemma OneWitness(s: Scenario, t: Traced)
    requires Fits(s) && t.q == QuorumAt(s, 6)
    requires HistoryOf(t, s.a) == LogOfA(6) && HistoryOf(t, s.b) == LogOfB(6) && HistoryOf(t, s.d) == LogOfD(6)
    ensures !MostSaw(t, SawDown)
  {
    hide HistoryOf;
    assert t.q.checks.Keys == {s.a, s.b, s.d};
    assert Witnesses(t, SawDown) == {s.a};
  }

  lemma LastTrail(s: Scenario, w: World)
    requires Fits(s) && Reached(s, w, 6) && QuorumsTraced(w)
    ensures s.check.id in w.trails && Now(w.trails[s.check.id]).q == w.rt.quorums[s.check.id]
    ensures !MostSaw(Now(w.trails[s.check.id]), SawDown)
  {
    hide QuorumAt, MostSaw;
    var c := s.check.id;
    TrailLeads(w, c);
    TrailLogs(w, c, s.a);
    TrailLogs(w, c, s.b);
    TrailLogs(w, c, s.d);
    hide LogAt, HistoryOf;
    OneWitness(s, Now(w.trails[c]));
  }

  /** The last result opens the incident in the store, too. */
  lemma LastResultOpens(s: Scenario, w: World)
    requires Fits(s) && Reached(s, w, 5) && IncidentsOk(w.db)
    ensures HasOpen(Do(w, ResultBatch([ItemAt(s, 5)], 14, true)).db, s.check.id)
  {
    hide LogsAre, Reported, PersistWrite, IncidentsOk, HasOpen;
    var item := ItemAt(s, 5);
    BatchOfOne(w, item, 14);
    StepOf(s, 5);
    assert ApplyItem(w.rt, item).write.incident.Some? && !ApplyItem(w.rt, item).write.incident.value.resolve;
    WriteDecides(w.db, ApplyItem(w.rt, item).write, 14, s.check.id);
    hide Do;
  }

  /**
    Reviving matters: in this run the incident opens, in memory and in the store, at a moment when only one of three
    probes has seen two downs in a row; the log of d is down, loss, down. The restart revives the vote of d.
   */
  lemma RevivedVoteOpensIncident(s: Scenario)
    requires Fits(s)
    ensures var c := s.check.id;
            var before, w := Exec(INITIAL, Prefix(s, 5)), Exec(INITIAL, Prefix(s, 6));
            && Revives(Exec(INITIAL, Beginning(s)), c, s.d)
            && c in before.rt.quorums && c in w.rt.quorums && c in w.trails
            && !before.rt.quorums[c].state.incidentOpen && w.rt.quorums[c].state.incidentOpen && HasOpen(w.db, c)
            && LogAt(w, c, s.a) == [SawUp, SawDown, SawDown] && LogAt(w, c, s.b) == [SawUp, SawUp]
            && LogAt(w, c, s.d) == [SawDown, LostEvidence, SawDown]
            && Now(w.trails[c]).q == w.rt.quorums[c] && !MostSaw(Now(w.trails[c]), SawDown)
  {
    hide Exec, Do, MostSaw, Now, Revives, HasOpen, QuorumsTraced, IncidentsOk, Prefix, Beginning, LogAt;
    BeginningReaches(s);
    PrefixReaches(s, 5);
    PrefixReaches(s, 6);
    RunIsTraced(Prefix(s, 5));
    RunIsTraced(Prefix(s, 6));
    LastTrail(s, Exec(INITIAL, Prefix(s, 6)));
    LastResultOpens(s, Exec(INITIAL, Prefix(s, 5)));
    LastStep(s);
  }

  lemma LastStep(s: Scenario)
    ensures Exec(INITIAL, Prefix(s, 6)) == Do(Exec(INITIAL, Prefix(s, 5)), ResultBatch([ItemAt(s, 5)], 14, true))
  {
    hide Do;
    ExecSnoc(INITIAL, Prefix(s, 5), ResultBatch([ItemAt(s, 5)], 14, true));
  }
}
