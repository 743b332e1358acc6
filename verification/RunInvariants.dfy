/**
  What every run of the monitoring server keeps, probe sweeps and restarts included: quorums follow
  their trails, durable rows are coherent, alerts are truthful, and the tables are consistent.
 */
module RunInvariants {
  import opened MonitoringTypes
  import opened CheckMachines
  import opened QuorumMachines
  import opened EvidenceTrails
  import opened StoreTables
  import opened NotificationLifecycle
  import opened Results
  import opened Sweepers
  import opened Recovery
  import opened MonitoringRuns

  /** A life starts empty or recovered, and in neither case stably up. */
  ghost predicate Starts(t: Trail) {
    QuorumOk(t.start.q) && t.start.q.state.lastStable != Some(QuorumState.Up)
  }

  /** Every quorum in memory, with the logs of its check, is where its trail leads. */
  ghost predicate QuorumsTraced(w: World) {
    && w.trails.Keys == w.rt.quorums.Keys
    && forall c | c in w.trails :: Starts(w.trails[c]) && Now(w.trails[c]) == Traced(w.rt.quorums[c], LogsOf(w, c))
  }

  ghost predicate RowsCoherent(db: Db) {
    forall k | k in db.rows :: Coherent(db.rows[k])
  }

  /** Every alert ever queued is truthful about the majority. */
  ghost predicate AlertsTruthful(db: Db) {
    forall k | 0 <= k < |db.notifications| ::
      AlertOk(db.notifications[k].payload) && db.notifications[k].payload.down == (db.notifications[k].event == DownEvent)
  }

  ghost predicate Named(w: World) {
    && NoProbe !in w.rt.probes && NoCheck !in w.db.checks
    && w.rt.quorums.Keys <= w.db.checks.Keys
    && forall c | c in w.rt.quorums :: NoProbe !in w.rt.quorums[c].checks
  }

  ghost predicate Consistent(w: World) {
    Named(w) && DbOk(w.db) && QuorumsTraced(w) && RowsCoherent(w.db) && AlertsTruthful(w.db)
  }

  lemma {:induction false} RunConcat(t: Traced, s: seq<Op>, r: seq<Op>)
    ensures Run(t, s + r) == Run(Run(t, s), r)
    decreases |r|
  {
    if r == [] {
      assert s + r == s;
    } else {
      assert (s + r)[..|s + r| - 1] == s + r[..|r| - 1];
      RunConcat(t, s, r[..|r| - 1]);
    }
  }

  lemma OpKeepsOk(t: Traced, op: Op)
    requires QuorumOk(t.q)
    ensures QuorumOk(Step(t, op).q)
  {
    hide Tally;
    RecomputeSettles(t.q.(checks := Step(t, op).q.checks));
  }

  lemma {:induction false} OpsKeepOk(t: Traced, ops: seq<Op>)
    requires QuorumOk(t.q)
    ensures QuorumOk(Run(t, ops).q)
    decreases |ops|
  {
    if ops != [] {
      OpsKeepOk(t, ops[..|ops| - 1]);
      OpKeepsOk(Run(t, ops[..|ops| - 1]), ops[|ops| - 1]);
    }
  }

  /** The trail of a check leads to its quorum, also when it has none in memory yet. */
  lemma TrailLeads(w: World, c: CheckId)
    requires QuorumsTraced(w)
    ensures Starts(TrailOf(w, c)) && QuorumOk(QuorumOf(w.rt, c))
    ensures Now(TrailOf(w, c)) == Traced(QuorumOf(w.rt, c), LogsOf(w, c))
  {
    assert Settled(NEW_QUORUM);
    OpsKeepOk(TrailOf(w, c).start, TrailOf(w, c).ops);
  }

  lemma AlertsStayTruthful(db: Db, s: StoreStep)
    requires DbOk(db) && AlertsTruthful(db)
    requires s.Open? && s.request.Some? ==> AlertOk(s.request.value) && s.request.value.down
    requires s.Resolve? && s.request.Some? ==> AlertOk(s.request.value) && !s.request.value.down
    ensures AlertsTruthful(Apply(db, s))
  {
    var db' := Apply(db, s);
    forall k | 0 <= k < |db'.notifications|
      ensures AlertOk(db'.notifications[k].payload) && db'.notifications[k].payload.down == (db'.notifications[k].event == DownEvent)
    {
      if k < |db.notifications| {
        StepAdvances(db, s, k);
      }
    }
  }

  /** What a monitoring write changes in the tables. */
  lemma WriteEffect(db: Db, write: MonitoringWrite, now: Time)
    requires DbOk(db) && AlertsTruthful(db) && AlertsOk(write.incident)
    ensures var db' := PersistWrite(db, write, now);
            && DbOk(db') && AlertsTruthful(db')
            && db'.checks == db.checks && db'.probes == db.probes
            && db'.rows == Upserted(db, write.row, now).rows
  {
    var up := Upsert(write.row, now);
    StepKeepsOk(db, up);
    AlertsStayTruthful(db, up);
    if write.incident.Some? {
      var i, c := write.incident.value, write.row.check;
      var s := if i.resolve then Resolve(c, i.request, now) else Open(c, i.request, now);
      StepKeepsOk(Apply(db, up), s);
      AlertsStayTruthful(Apply(db, up), s);
    }
  }

  // ---- Committed monitoring writes -----------------------------------------------------------------

  lemma CommittingKeepsTraced(w: World, c: CheckId, q: Quorum, ops: seq<Op>, write: MonitoringWrite, now: Time)
    requires QuorumsTraced(w) && q == Run(Now(TrailOf(w, c)), ops).q
    ensures QuorumsTraced(Committing(w, c, q, ops, write, now)) && QuorumOk(q)
  {
    hide QuorumOk, Step, PersistWrite, JournalOf;
    var trail := TrailOf(w, c);
    TrailLeads(w, c);
    RunConcat(trail.start, trail.ops, ops);
    OpsKeepOk(Now(trail), ops);
  }

  /** The new row is accepted and coherent. */
  lemma RowsStayCoherent(db: Db, c: CheckId, p: ProbeId, child: CheckExecState, now: Time)
    requires RowsCoherent(db) && Coherent(child) && c != NoCheck && p != NoProbe
    ensures RowsCoherent(Upserted(db, CheckStateWrite(c, p, child), now))
  {
    RowRoundTrip(c, p, child, now, false);
  }

  lemma CommittingKeepsConsistent(w: World, c: CheckId, q: Quorum, ops: seq<Op>, write: MonitoringWrite, now: Time)
    requires Consistent(w) && c in w.db.checks && NoProbe !in q.checks
    requires q == Run(Now(TrailOf(w, c)), ops).q
    requires write.row.check == c && write.row.probe in q.checks && write.row.child == q.checks[write.row.probe]
    requires AlertsOk(write.incident)
    ensures Consistent(Committing(w, c, q, ops, write, now))
  {
    hide Step, PersistWrite, JournalOf, Run, QuorumsTraced, TrailOf, DbOk, AlertsTruthful;
    CommittingKeepsTraced(w, c, q, ops, write, now);
    WriteEffect(w.db, write, now);
    RowsStayCoherent(w.db, c, write.row.probe, write.row.child, now);
  }

  /** One result makes exactly the recomputes its trail records. */
  lemma ItemFollowsOps(t: Traced, item: ObservedResult)
    ensures Run(t, ItemOps(t.q, item)).q ==
            Reported(t.q, item.probe, item.up, item.at, EvidenceExpiresAt(item.check, item.at))
  {
    var obs := Observe(item.probe, item.up, item.at, Some(EvidenceExpiresAt(item.check, item.at)));
    var ops := ItemOps(t.q, item);
    if item.probe in t.q.checks {
      assert ops == [obs] && ops[..0] == [];
      assert Run(t, ops) == Step(Run(t, []), obs);
    } else {
      assert ops == [Join(item.probe), obs] && ops[..1] == [Join(item.probe)] && ops[..1][..0] == [];
      assert Run(t, ops) == Step(Run(t, ops[..1]), obs);
      assert Run(t, ops[..1]) == Step(t, Join(item.probe));
    }
  }

  lemma CommitItemKeepsConsistent(w: World, item: ObservedResult, now: Time)
    requires Consistent(w) && item.probe in w.rt.probes && item.check.id in w.db.checks
    ensures Consistent(CommitItem(w, item, now))
    ensures CommitItem(w, item, now).rt.probes == w.rt.probes && CommitItem(w, item, now).db.checks == w.db.checks
  {
    hide Step, PersistWrite, JournalOf, Run, Tally;
    var c := item.check.id;
    TrailLeads(w, c);
    var t := Now(TrailOf(w, c));
    var a := ApplyItem(w.rt, item);
    ItemFollowsOps(t, item);
    ReportAlertsOk(item.check, t.q, item.probe, item.up, item.at, EvidenceExpiresAt(item.check, item.at));
    CommittingKeepsConsistent(w, c, a.rt.quorums[c], ItemOps(t.q, item), a.write, now);
    WriteEffect(w.db, a.write, now);
  }

  lemma {:induction false} BatchKeepsConsistent(w: World, items: seq<ObservedResult>, now: Time)
    requires Consistent(w) && Acceptable(w, items)
    ensures Consistent(CommitItems(w, items, now))
    ensures CommitItems(w, items, now).rt.probes == w.rt.probes && CommitItems(w, items, now).db.checks == w.db.checks
  {
    if items != [] {
      var init := items[..|items| - 1];
      assert forall i | 0 <= i < |init| :: init[i] == items[i];
      BatchKeepsConsistent(w, init, now);
      CommitItemKeepsConsistent(CommitItems(w, init, now), items[|items| - 1], now);
    }
  }

  /** An evidence loss is one recompute of the trail, and its write is truthful. */
  lemma SweepFollowsTrail(w: World, c: CheckId, p: ProbeId, lookup: Lookup)
    requires QuorumsTraced(w) && c in w.rt.quorums && p in w.rt.quorums[c].checks
    ensures var q := w.rt.quorums[c];
            && QuorumOk(q)
            && LostBy(q, p) == Run(Now(TrailOf(w, c)), [Lose(p)]).q
            && AlertsOk(LossWrite(c, p, q, LostBy(q, p), lookup).incident)
  {
    TrailLeads(w, c);
    var t := Now(TrailOf(w, c));
    assert [Lose(p)][..0] == [];
    assert Run(t, [Lose(p)]) == Step(t, Lose(p));
    if lookup.Found? {
      LossAlertsOk(lookup.check, t.q, p);
    }
  }

  lemma SweepKeepsConsistent(w: World, c: CheckId, p: ProbeId, now: Time, lookup: Lookup, ok: bool)
    requires Consistent(w)
    ensures Consistent(Sweeping(w, c, p, now, lookup, ok))
  {
    var swept := SweepAssignment(w.rt, c, p, now, lookup, ok);
    if swept.outcome.Committed? && LookupPossible(w.db, c, lookup) {
      SweepFollowsTrail(w, c, p, lookup);
      CommittingKeepsConsistent(w, c, LostBy(w.rt.quorums[c], p), [Lose(p)], swept.outcome.write, now);
    }
  }

  // ---- The other steps -------------------------------------------------------------------------------

  lemma LosingLeads(t: Trail, p: ProbeId)
    ensures Losing(t, p).start == t.start && Now(Losing(t, p)).q == Degraded(Now(t).q, p)
  {
    if p in Now(t).q.checks {
      RunConcat(t.start, t.ops, [Lose(p)]);
      assert [Lose(p)][..0] == [];
      assert Run(Now(t), [Lose(p)]) == Step(Now(t), Lose(p));
    }
  }

  /** Steps that leave the store alone only have to care for the runtime. */
  lemma RuntimeStepKeepsConsistent(w: World, w': World)
    requires Consistent(w) && Named(w') && QuorumsTraced(w')
    requires w'.db == w.db
    ensures Consistent(w')
  {
  }

  lemma ExpiryKeepsTraced(w: World, p: ProbeId, now: Time, offlineAfter: int)
    requires QuorumsTraced(w)
    ensures QuorumsTraced(Expiring(w, p, now, offlineAfter))
  {
    hide QuorumOk, Now, Recomputed, Losing;
    forall c | c in w.trails
      ensures Losing(w.trails[c], p).start == w.trails[c].start && Now(Losing(w.trails[c], p)).q == Degraded(w.rt.quorums[c], p)
    {
      LosingLeads(w.trails[c], p);
    }
  }

  lemma ExpiryKeepsConsistent(w: World, p: ProbeId, now: Time, offlineAfter: int)
    requires Consistent(w)
    ensures Consistent(Expiring(w, p, now, offlineAfter))
  {
    hide QuorumsTraced, DbOk, RowsCoherent, AlertsTruthful;
    ExpiryKeepsTraced(w, p, now, offlineAfter);
    RuntimeStepKeepsConsistent(w, Expiring(w, p, now, offlineAfter));
  }

  lemma NewTrailStarts(logs: Logs)
    ensures Starts(Trail(Traced(NEW_QUORUM, logs), [])) && Now(Trail(Traced(NEW_QUORUM, logs), [])) == Traced(NEW_QUORUM, logs)
  {
    assert Settled(NEW_QUORUM);
  }

  lemma EnsureKeepsTraced(w: World, c: CheckId)
    requires QuorumsTraced(w)
    ensures QuorumsTraced(Ensuring(w, c))
  {
    hide Starts, Now;
    NewTrailStarts(LogsOf(w, c));
  }

  lemma EnsureKeepsConsistent(w: World, c: CheckId)
    requires Consistent(w)
    ensures Consistent(Ensuring(w, c))
  {
    hide QuorumsTraced, DbOk, RowsCoherent;
    EnsureKeepsTraced(w, c);
    RuntimeStepKeepsConsistent(w, Ensuring(w, c));
  }

  lemma RemoveKeepsConsistent(w: World, c: CheckId)
    requires Consistent(w)
    ensures Consistent(Removing(w, c))
  {
    assert QuorumsTraced(Removing(w, c));
    RuntimeStepKeepsConsistent(w, Removing(w, c));
  }

  lemma TransactionKeepsConsistent(w: World, s: StoreStep)
    requires Consistent(w)
    ensures Consistent(Do(w, Transaction(s)))
  {
    var w' := Do(w, Transaction(s));
    if w' != w {
      StepKeepsOk(w.db, s);
      AlertsStayTruthful(w.db, s);
      assert w'.db.rows.Keys <= w.db.rows.Keys;
      assert RowsCoherent(w'.db);
    }
  }

  lemma RecoveredTrailStarts(checks: Children, open: bool, logs: Logs)
    requires forall p | p in checks :: Coherent(checks[p])
    ensures var t := Trail(Traced(RecoveredQuorum(checks, open), logs), []); Starts(t) && Now(t) == t.start
  {
    hide Coherent;
    RecoveryIsSilent(checks, open);
    RecoveryKeepsOk(checks, open);
  }

  lemma RestartKeepsTraced(w: World)
    requires RowsCoherent(w.db)
    ensures QuorumsTraced(Restarting(w))
  {
    hide RestartedLogs, RecoveredQuorum, Starts, Now, HasOpen, RecoveredChildren;
    var w' := Restarting(w);
    forall c | c in w'.trails ensures Starts(w'.trails[c]) && Now(w'.trails[c]) == Traced(w'.rt.quorums[c], LogsOf(w', c)) {
      ReloadedAreCoherent(w.db, c);
      RecoveredTrailStarts(RecoveredChildren(w.db, c), HasOpen(w.db, c), RestartedLogs(w, c));
    }
  }

  lemma ReloadedAreCoherent(db: Db, c: CheckId)
    requires RowsCoherent(db)
    ensures forall p | p in RecoveredChildren(db, c) :: Coherent(RecoveredChildren(db, c)[p])
  {
  }

  lemma RestartKeepsConsistent(w: World)
    requires Consistent(w)
    ensures Consistent(Restarting(w))
  {
    RestartKeepsTraced(w);
    RuntimeStepKeepsConsistent(w, Restarting(w));
  }

  lemma TablesKeepOk(db: Db, db': Db)
    requires DbOk(db) && AlertsTruthful(db)
    requires db'.checks == db.checks && db'.incidents == db.incidents && db'.notifications == db.notifications
    ensures DbOk(db') && AlertsTruthful(db')
  {
  }

  /** Steps that only touch probes leave quorums, rows and incidents as they were. */
  lemma ProbeStepKeepsConsistent(w: World, w': World)
    requires Consistent(w) && NoProbe !in w'.rt.probes
    requires w' == w.(rt := w.rt.(probes := w'.rt.probes), db := w.db.(probes := w'.db.probes))
    ensures Consistent(w')
  {
    TablesKeepOk(w.db, w'.db);
  }

  lemma StepKeepsConsistent(w: World, a: Action)
    requires Consistent(w)
    ensures Consistent(Do(w, a))
  {
    hide DbOk, QuorumsTraced, RowsCoherent, AlertsTruthful, CommitItems, Sweeping, Expiring, Ensuring, Removing, Restarting, Apply;
    match a
    case ResultBatch(items, now, ok) =>
      if Acceptable(w, items) && ok {
        BatchKeepsConsistent(w, items, now);
      }
    case SweepEvidence(c, p, now, lookup, ok) => SweepKeepsConsistent(w, c, p, now, lookup, ok);
    case ExpireProbe(p, now, offlineAfter) => ExpiryKeepsConsistent(w, p, now, offlineAfter);
    case Transaction(s) => TransactionKeepsConsistent(w, s);
    case Restart => RestartKeepsConsistent(w);
    case EnsureCheck(c) => EnsureKeepsConsistent(w, c);
    case RemoveCheck(c) => RemoveKeepsConsistent(w, c);
    case _ => ProbeStepKeepsConsistent(w, Do(w, a));
  }

  lemma {:induction false} RunKeepsConsistent(actions: seq<Action>)
    ensures Consistent(Exec(INITIAL, actions))
  {
    if actions != [] {
      RunKeepsConsistent(actions[..|actions| - 1]);
      StepKeepsConsistent(Exec(INITIAL, actions[..|actions| - 1]), actions[|actions| - 1]);
    }
  }
}
