/**
  What holds of every run, also where restarts revive votes: a streak of n equal outcomes, in memory or in a row,
  means that the last n results of the assignment were all that outcome, losses of evidence left out of account.
 */
module ReportedEvidence {
  import opened MonitoringTypes
  import opened CheckMachines
  import opened QuorumMachines
  import opened EvidenceTrails
  import opened StoreTables
  import opened NotificationLifecycle
  import opened Results
  import opened Sweepers
  import opened Recovery
  import opened MonitoringRuns
  import opened RunInvariants
  import opened CrashConsistency
  import opened EvidenceLogs

  /** The results in a log. */
  function Outcomes(h: seq<Event>): seq<Event> {
    if h == [] then []
    else
      var e := h[|h| - 1];
      Outcomes(h[..|h| - 1]) + (if e == LostEvidence then [] else [e])
  }

  lemma OutcomesNext(h: seq<Event>, e: Event)
    ensures Outcomes(h + [e]) == Outcomes(h) + (if e == LostEvidence then [] else [e])
  {
    assert (h + [e])[..|h|] == h;
  }

  /** The last n results all have that outcome. */
  predicate EndsWith(results: seq<Event>, outcome: Option<CheckState>, n: nat) {
    n <= |results| && forall i | |results| - n <= i < |results| :: OutcomeOf(results[i]) == outcome
  }

  predicate Supported(child: CheckExecState, h: seq<Event>) {
    EndsWith(Outcomes(h), child.lastOutcome, child.streakLen)
  }

  lemma EventKeepsSupport(child: CheckExecState, h: seq<Event>, e: Event, at: Time, expiresAt: Option<Time>)
    requires Supported(child, h)
    ensures Supported(After(child, e, at, expiresAt), h + [e])
  {
    OutcomesNext(h, e);
  }

  // ---- Lives --------------------------------------------------------------------------------------------

  ghost predicate AllSupported(t: Traced) {
    forall p :: Supported(ChildOf(t.q.checks, p), HistoryOf(t, p))
  }

  lemma StepKeepsSupport(t: Traced, op: Op)
    requires AllSupported(t)
    ensures AllSupported(Step(t, op))
  {
    hide Supported, Tally;
    var p := op.probe;
    var child, h := ChildOf(t.q.checks, p), HistoryOf(t, p);
    assert Supported(child, h);
    if !op.Join? {
      var e := if op.Lose? then LostEvidence else if op.up then SawUp else SawDown;
      EventKeepsSupport(child, h, e, if op.Observe? then op.at else ZERO_TIME, if op.Observe? then op.expiresAt else None);
    }
    forall r ensures Supported(ChildOf(Step(t, op).q.checks, r), HistoryOf(Step(t, op), r)) {
      assert Supported(ChildOf(t.q.checks, r), HistoryOf(t, r));
    }
  }

  lemma {:induction false} RunKeepsSupport(t: Traced, ops: seq<Op>)
    requires AllSupported(t)
    ensures AllSupported(Run(t, ops))
    decreases |ops|
  {
    if ops != [] {
      hide AllSupported;
      RunKeepsSupport(t, ops[..|ops| - 1]);
      StepKeepsSupport(Run(t, ops[..|ops| - 1]), ops[|ops| - 1]);
    }
  }

  /** The assigned probes whose last two results were both e. */
  function Reporters(t: Traced, e: Event): set<ProbeId> {
    set p | p in t.q.checks && EndsInTwo(Outcomes(HistoryOf(t, p)), e)
  }

  predicate MostReported(t: Traced, e: Event) {
    2 * |Reporters(t, e)| > |t.q.checks|
  }

  lemma StreakReports(child: CheckExecState, h: seq<Event>, e: Event)
    requires Supported(child, h) && e != LostEvidence && child.lastOutcome == OutcomeOf(e) && child.streakLen >= 2
    ensures EndsInTwo(Outcomes(h), e)
  {
    var r := Outcomes(h);
    assert OutcomeOf(r[|r| - 1]) == OutcomeOf(e) && OutcomeOf(r[|r| - 2]) == OutcomeOf(e);
  }

  lemma GatedMajorityReports(t: Traced, e: Event)
    requires AllSupported(t) && (e == SawUp || e == SawDown)
    requires Majority(Voters(t.q.checks, true, OutcomeOf(e).value), t.q.checks)
    ensures MostReported(t, e)
  {
    var voters := Voters(t.q.checks, true, OutcomeOf(e).value);
    forall p | p in voters ensures p in Reporters(t, e) {
      assert Supported(ChildOf(t.q.checks, p), HistoryOf(t, p));
      StreakReports(t.q.checks[p], HistoryOf(t, p), e);
    }
    SubsetCardinality(voters, Reporters(t, e));
  }

  /** The majorities behind a flip, at the recompute and at the one before it. */
  lemma FlipHasMajorities(t: Traced, op: Op)
    requires QuorumOk(t.q)
    ensures var before, after := t.q, Step(t, op).q;
            && (!before.state.incidentOpen && after.state.incidentOpen ==>
                  && before.state.lastStable == Some(QuorumState.Up)
                  && Majority(Voters(before.checks, true, CheckState.Down), before.checks)
                  && Majority(Voters(after.checks, true, CheckState.Down), after.checks))
            && (before.state.incidentOpen && !after.state.incidentOpen ==>
                  && Majority(Voters(before.checks, true, CheckState.Up), before.checks)
                  && Majority(Voters(after.checks, true, CheckState.Up), after.checks))
  {
    GatingShrinksUpVotes(t.q.checks);
    GatingShrinksUpVotes(Step(t, op).q.checks);
    hide Voters, Majority;
  }

  lemma FlipIsReported(t: Traced, op: Op)
    requires QuorumOk(t.q) && AllSupported(t)
    ensures var after := Step(t, op);
            && (!t.q.state.incidentOpen && after.q.state.incidentOpen ==>
                  && t.q.state.lastStable == Some(QuorumState.Up) && MostReported(t, SawDown) && MostReported(after, SawDown))
            && (t.q.state.incidentOpen && !after.q.state.incidentOpen ==> MostReported(t, SawUp) && MostReported(after, SawUp))
  {
    hide AllSupported, QuorumOk, MostReported, Step, Majority, Voters;
    StepKeepsSupport(t, op);
    FlipHasMajorities(t, op);
    var after := Step(t, op);
    if !t.q.state.incidentOpen && after.q.state.incidentOpen {
      GatedMajorityReports(t, SawDown);
      GatedMajorityReports(after, SawDown);
    } else if t.q.state.incidentOpen && !after.q.state.incidentOpen {
      GatedMajorityReports(t, SawUp);
      GatedMajorityReports(after, SawUp);
    }
  }

  // ---- Runs -----------------------------------------------------------------------------------------------

  /** The life of the quorum of c began with supported children. */
  ghost predicate LifeSupported(w: World, c: CheckId) {
    AllSupported(TrailOf(w, c).start)
  }

  ghost predicate RowsSupported(w: World) {
    forall c, p | (c, p) in w.db.rows :: Supported(w.db.rows[(c, p)], LogAt(w, c, p))
  }

  ghost predicate WorldSupported(w: World) {
    (forall c :: LifeSupported(w, c)) && RowsSupported(w)
  }

  /** The streak in memory is one of the last results. */
  ghost predicate MemorySupported(w: World, c: CheckId, p: ProbeId) {
    Supported(ChildOf(QuorumOf(w.rt, c).checks, p), LogAt(w, c, p))
  }

  lemma ChildIsSupported(w: World, c: CheckId, p: ProbeId)
    requires QuorumsTraced(w) && LifeSupported(w, c)
    ensures MemorySupported(w, c, p)
  {
    hide Supported;
    TrailLeads(w, c);
    RunKeepsSupport(TrailOf(w, c).start, TrailOf(w, c).ops);
    hide QuorumsTraced, TrailOf;
    assert Supported(ChildOf(Now(TrailOf(w, c)).q.checks, p), HistoryOf(Now(TrailOf(w, c)), p));
  }

  lemma SameStartSupported(w: World, w': World, c: CheckId)
    requires WorldSupported(w) && TrailOf(w', c).start == TrailOf(w, c).start
    ensures LifeSupported(w', c)
  {
    assert LifeSupported(w, c);
  }

  /** A committed write: the row it writes is the child in memory, and no other log changed. */
  lemma WrittenRowSupported(w: World, w': World, c: CheckId, p: ProbeId, row: CheckExecState)
    requires RowsSupported(w) && QuorumsTraced(w') && LifeSupported(w', c)
    requires w'.db.rows == w.db.rows[(c, p) := row]
    requires var child := ChildOf(QuorumOf(w'.rt, c).checks, p); row.lastOutcome == child.lastOutcome && row.streakLen == child.streakLen
    requires forall d, r | (d, r) != (c, p) :: LogAt(w', d, r) == LogAt(w, d, r)
    ensures RowsSupported(w')
  {
    hide QuorumsTraced, LifeSupported, LogAt;
    ChildIsSupported(w', c, p);
    forall d, r | (d, r) in w'.db.rows ensures Supported(w'.db.rows[(d, r)], LogAt(w', d, r)) {
      if (d, r) != (c, p) {
        assert Supported(w.db.rows[(d, r)], LogAt(w, d, r));
      }
    }
  }

  /** The row a coherent child is written as. */
  lemma WrittenRow(w: World, c: CheckId, q: Quorum, ops: seq<Op>, write: MonitoringWrite, now: Time)
    requires Consistent(w) && c in w.db.checks && AlertsOk(write.incident)
    requires write.row.check == c && write.row.probe != NoProbe && Coherent(write.row.child)
    ensures var w' := Committing(w, c, q, ops, write, now);
            var row := Normalized(write.row, now);
            && row.Some? && w'.db.rows == w.db.rows[(c, write.row.probe) := row.value]
            && row.value.lastOutcome == write.row.child.lastOutcome && row.value.streakLen == write.row.child.streakLen
            && QuorumOf(w'.rt, c) == q
  {
    ConsistentParts(w);
    hide Consistent, PersistWrite, JournalOf, TrailOf, Now, Tally;
    WriteEffect(w.db, write, now);
    RowRoundTrip(c, write.row.probe, write.row.child, now, false);
  }

  lemma ItemKeepsSupport(w: World, item: ObservedResult, now: Time)
    requires Consistent(w) && WorldSupported(w) && item.probe in w.rt.probes && item.check.id in w.db.checks
    ensures WorldSupported(CommitItem(w, item, now))
  {
    ConsistentParts(w);
    CommitItemKeepsConsistent(w, item, now);
    var c, p, w' := item.check.id, item.probe, CommitItem(w, item, now);
    ConsistentParts(w');
    hide Consistent, WorldSupported, RowsSupported, LifeSupported, Committing, AlertsTruthful, Reported, IncidentFor, LogAt;
    TrailLeads(w, c);
    var q, a, expiresAt := QuorumOf(w.rt, c), ApplyItem(w.rt, item), EvidenceExpiresAt(item.check, item.at);
    ReportKeepsOk(q, p, item.up, item.at, expiresAt);
    ReportTouchesOne(q, p, item.up, item.at, expiresAt);
    ReportAlertsOk(item.check, q, p, item.up, item.at, expiresAt);
    WrittenRow(w, c, a.rt.quorums[c], ItemOps(q, item), a.write, now);
    ItemLives(w, item, now);
    forall d, r | (d, r) != (c, p) ensures LogAt(w', d, r) == LogAt(w, d, r) {
      ItemIsLogged(w, item, now, d, r);
    }
    RowsOf(w);
    WrittenRowSupported(w, w', c, p, Normalized(a.write.row, now).value);
    BothSupported(w');
  }

  lemma ItemLives(w: World, item: ObservedResult, now: Time)
    requires WorldSupported(w)
    ensures forall d :: LifeSupported(CommitItem(w, item, now), d)
  {
    hide WorldSupported, LifeSupported, Committing, TrailOf;
    var c, a := item.check.id, ApplyItem(w.rt, item);
    forall d ensures LifeSupported(CommitItem(w, item, now), d) {
      CommittingKeepsStart(w, c, a.rt.quorums[c], ItemOps(QuorumOf(w.rt, c), item), a.write, now, d);
      SameStartSupported(w, CommitItem(w, item, now), d);
    }
  }

  lemma RowsOf(w: World)
    requires WorldSupported(w)
    ensures RowsSupported(w)
  {
  }

  lemma BothSupported(w: World)
    requires RowsSupported(w) && forall c :: LifeSupported(w, c)
    ensures WorldSupported(w)
  {
  }

  lemma {:induction false} BatchKeepsSupport(w: World, items: seq<ObservedResult>, now: Time)
    requires Consistent(w) && WorldSupported(w) && Acceptable(w, items)
    ensures WorldSupported(CommitItems(w, items, now))
  {
    hide Consistent, WorldSupported, CommitItem;
    if items != [] {
      var init := items[..|items| - 1];
      assert forall i | 0 <= i < |init| :: init[i] == items[i];
      BatchKeepsSupport(w, init, now);
      BatchKeepsConsistent(w, init, now);
      ItemKeepsSupport(CommitItems(w, init, now), items[|items| - 1], now);
    }
  }

  lemma SweepKeepsSupport(w: World, c: CheckId, p: ProbeId, now: Time, lookup: Lookup, ok: bool)
    requires Consistent(w) && WorldSupported(w)
    ensures WorldSupported(Sweeping(w, c, p, now, lookup, ok))
  {
    var w', swept := Sweeping(w, c, p, now, lookup, ok), SweepAssignment(w.rt, c, p, now, lookup, ok);
    SweepKeepsConsistent(w, c, p, now, lookup, ok);
    ConsistentParts(w);
    ConsistentParts(w');
    hide Consistent, WorldSupported, RowsSupported, LifeSupported, Committing, AlertsTruthful, LogAt, Recomputed, Sweeping;
    if swept.outcome.Committed? && LookupPossible(w.db, c, lookup) {
      var r := LostBy(w.rt.quorums[c], p);
      assert w' == Committing(w, c, r, [Lose(p)], swept.outcome.write, now) by {
        SweepIsCommitting(w, c, p, now, lookup, ok);
      }
      SweepFollowsTrail(w, c, p, lookup);
      LossKeepsOk(w.rt.quorums[c], p);
      LossKeepsKeys(w.rt.quorums[c], p);
      WrittenRow(w, c, r, [Lose(p)], swept.outcome.write, now);
      forall d ensures LifeSupported(w', d) {
        SweepKeepsStart(w, c, p, now, lookup, ok, d);
        SameStartSupported(w, w', d);
      }
      forall d, s | (d, s) != (c, p) ensures LogAt(w', d, s) == LogAt(w, d, s) {
        SweepIsLogged(w, c, p, now, lookup, ok, d, s);
      }
      RowsOf(w);
      WrittenRowSupported(w, w', c, p, Normalized(swept.outcome.write.row, now).value);
      BothSupported(w');
    } else {
      assert w' == w by {
        SweepIsCommitting(w, c, p, now, lookup, ok);
      }
    }
  }

  lemma SweepIsCommitting(w: World, c: CheckId, p: ProbeId, now: Time, lookup: Lookup, ok: bool)
    ensures var swept := SweepAssignment(w.rt, c, p, now, lookup, ok);
            Sweeping(w, c, p, now, lookup, ok) ==
              if swept.outcome.Committed? && LookupPossible(w.db, c, lookup) then
                Committing(w, c, LostBy(w.rt.quorums[c], p), [Lose(p)], swept.outcome.write, now)
              else w
  {
    hide Committing, Recomputed;
  }

  /** Steps that add nothing but losses to the logs, and no row, keep the rows supported. */
  lemma LossesKeepRows(w: World, w': World)
    requires RowsSupported(w)
    requires forall k | k in w'.db.rows :: k in w.db.rows && w'.db.rows[k] == w.db.rows[k]
    requires forall c, p :: LogAt(w', c, p) == LogAt(w, c, p) || LogAt(w', c, p) == LogAt(w, c, p) + [LostEvidence]
    ensures RowsSupported(w')
  {
    hide LogAt;
    forall c, p | (c, p) in w'.db.rows ensures Supported(w'.db.rows[(c, p)], LogAt(w', c, p)) {
      OutcomesNext(LogAt(w, c, p), LostEvidence);
    }
  }

  lemma ExpiryKeepsDb(w: World, p: ProbeId, now: Time, offlineAfter: int)
    ensures Expiring(w, p, now, offlineAfter).db == w.db
  {
    hide Now, Losing, SweepProbe;
  }

  lemma ExpiryKeepsSupport(w: World, p: ProbeId, now: Time, offlineAfter: int)
    requires QuorumsTraced(w) && WorldSupported(w)
    ensures WorldSupported(Expiring(w, p, now, offlineAfter))
  {
    hide QuorumsTraced, WorldSupported, RowsSupported, LifeSupported, LogAt, Expiring, TrailOf, Assigned, HeartbeatStale;
    var w' := Expiring(w, p, now, offlineAfter);
    ExpiryKeepsDb(w, p, now, offlineAfter);
    forall d ensures LifeSupported(w', d) {
      ExpiryKeepsStart(w, p, now, offlineAfter, d);
      SameStartSupported(w, w', d);
    }
    forall d, r ensures LogAt(w', d, r) == LogAt(w, d, r) || LogAt(w', d, r) == LogAt(w, d, r) + [LostEvidence] {
      ExpiryIsLogged(w, p, now, offlineAfter, d, r);
      assert LogAt(w, d, r) + [] == LogAt(w, d, r);
    }
    RowsOf(w);
    LossesKeepRows(w, w');
    BothSupported(w');
  }

  lemma NewLifeIsSupported(logs: Logs)
    ensures AllSupported(Traced(NEW_QUORUM, logs))
  {
  }

  lemma RemoveKeepsSupport(w: World, d: CheckId)
    requires WorldSupported(w)
    ensures WorldSupported(Removing(w, d))
  {
    var w' := Removing(w, d);
    assert w'.db == w.db;
    hide WorldSupported, RowsSupported, AllSupported, LogAt, Removing;
    forall c ensures LifeSupported(w', c) {
      if !Active(w.db, d) && c == d {
        RemovedTrail(w, d, c);
        NewLifeIsSupported(LogsOf(w', c));
      } else {
        KeptTrail(w, d, c);
        SameStartSupported(w, w', c);
      }
    }
    forall c, p ensures LogAt(w', c, p) == LogAt(w, c, p) || LogAt(w', c, p) == LogAt(w, c, p) + [LostEvidence] {
      RemovalIsLogged(w, d, c, p);
      assert LogAt(w, c, p) + [] == LogAt(w, c, p);
    }
    RowsOf(w);
    LossesKeepRows(w, w');
    BothSupported(w');
  }

  lemma KeptTrail(w: World, d: CheckId, c: CheckId)
    requires Active(w.db, d) || c != d
    ensures TrailOf(Removing(w, d), c).start == TrailOf(w, c).start
  {
  }

  lemma RestartKeepsRows(w: World)
    requires RowsSupported(w)
    ensures RowsSupported(Restarting(w))
  {
    hide RowsSupported, LogAt, Recovered, RestartedLogs, Reloads, Assigned;
    assert Restarting(w).db == w.db;
    hide Restarting;
    forall c, p ensures LogAt(Restarting(w), c, p) == LogAt(w, c, p) || LogAt(Restarting(w), c, p) == LogAt(w, c, p) + [LostEvidence] {
      RestartIsLogged(w, c, p);
      assert LogAt(w, c, p) + [] == LogAt(w, c, p);
    }
    LossesKeepRows(w, Restarting(w));
  }

  lemma RestartedChildIsSupported(w: World, c: CheckId, p: ProbeId)
    requires RowsSupported(w)
    ensures Supported(ChildOf(QuorumOf(Restarting(w).rt, c).checks, p), LogAt(Restarting(w), c, p))
  {
    assert Restarting(w).db == w.db;
    RestartKeepsRows(w);
    RestartedChild(w, c, p);
    hide Restarting, LogAt, Recovered;
    if Reloads(w.db, c, p) {
      assert Supported(w.db.rows[(c, p)], LogAt(Restarting(w), c, p));
    }
  }

  lemma RestartKeepsSupport(w: World)
    requires Consistent(w) && WorldSupported(w)
    ensures WorldSupported(Restarting(w))
  {
    RowsOf(w);
    RestartKeepsRows(w);
    RestartKeepsConsistent(w);
    ConsistentParts(Restarting(w));
    hide Consistent, WorldSupported, RowsSupported, QuorumsTraced, AlertsTruthful, Restarting, Supported, LogAt, AllSupported;
    forall c ensures LifeSupported(Restarting(w), c) {
      RestartedLife(w, c);
      forall p ensures Supported(ChildOf(QuorumOf(Restarting(w).rt, c).checks, p), LogAt(Restarting(w), c, p)) {
        RestartedChildIsSupported(w, c, p);
      }
      YoungLifeIsSupported(Restarting(w), c);
    }
    BothSupported(Restarting(w));
  }

  lemma YoungLifeIsSupported(w: World, c: CheckId)
    requires QuorumsTraced(w) && TrailOf(w, c).ops == []
    requires forall p :: Supported(ChildOf(QuorumOf(w.rt, c).checks, p), LogAt(w, c, p))
    ensures LifeSupported(w, c)
  {
    hide Supported;
    TrailLeads(w, c);
    var t := TrailOf(w, c).start;
    assert t == Traced(QuorumOf(w.rt, c), LogsOf(w, c));
    hide QuorumsTraced, TrailOf;
    forall p ensures Supported(ChildOf(t.q.checks, p), HistoryOf(t, p)) {
      assert Supported(ChildOf(QuorumOf(w.rt, c).checks, p), LogAt(w, c, p));
    }
  }

  /** Steps that touch neither lives nor logs, and add no row. */
  lemma UntouchedSupported(w: World, w': World)
    requires WorldSupported(w) && w'.log == w.log && forall c :: TrailOf(w', c).start == TrailOf(w, c).start
    requires forall k | k in w'.db.rows :: k in w.db.rows && w'.db.rows[k] == w.db.rows[k]
    ensures WorldSupported(w')
  {
    hide WorldSupported, LifeSupported, TrailOf, RowsSupported;
    forall c ensures LifeSupported(w', c) {
      SameStartSupported(w, w', c);
    }
    RowsOf(w);
    LossesKeepRows(w, w');
    BothSupported(w');
  }

  lemma TracedParts(w: World)
    requires Consistent(w)
    ensures QuorumsTraced(w) && w.trails.Keys == w.rt.quorums.Keys
  {
  }

  lemma StepKeepsWorldSupported(w: World, a: Action)
    requires Consistent(w) && WorldSupported(w)
    ensures WorldSupported(Do(w, a))
  {
    hide Consistent, TrailOf, WorldSupported, QuorumsTraced, AlertsTruthful, CommitItems, Sweeping, Expiring, Restarting,
      Removing, Ensuring, Apply;
    TracedParts(w);
    match a
    case ResultBatch(items, now, ok) =>
      if Acceptable(w, items) && ok {
        BatchKeepsSupport(w, items, now);
      }
    case SweepEvidence(c, p, now, lookup, ok) => SweepKeepsSupport(w, c, p, now, lookup, ok);
    case ExpireProbe(p, now, offlineAfter) => ExpiryKeepsSupport(w, p, now, offlineAfter);
    case Restart => RestartKeepsSupport(w);
    case RemoveCheck(d) => RemoveKeepsSupport(w, d);
    case EnsureCheck(d) => EnsureKeepsSupport(w, d);
    case Transaction(step) => TransactionKeepsSupport(w, step);
    case _ => ProbeStepKeepsSupport(w, Do(w, a));
  }

  lemma ProbeStepKeepsSupport(w: World, w': World)
    requires WorldSupported(w) && w'.log == w.log && w'.trails == w.trails && w'.db.rows == w.db.rows
    ensures WorldSupported(w')
  {
    hide WorldSupported;
    UntouchedSupported(w, w');
  }

  lemma TransactionKeepsSupport(w: World, s: StoreStep)
    requires WorldSupported(w)
    ensures WorldSupported(Do(w, Transaction(s)))
  {
    hide WorldSupported;
    var w' := Do(w, Transaction(s));
    if w' != w {
      TransactionAddsNoRow(w.db, s);
      hide Apply;
      UntouchedSupported(w, w');
    }
  }

  lemma TransactionAddsNoRow(db: Db, s: StoreStep)
    requires !s.Upsert?
    ensures forall k | k in Apply(db, s).rows :: k in db.rows && Apply(db, s).rows[k] == db.rows[k]
  {
  }

  lemma EnsureKeepsSupport(w: World, d: CheckId)
    requires WorldSupported(w) && w.trails.Keys == w.rt.quorums.Keys
    ensures WorldSupported(Ensuring(w, d))
  {
    hide WorldSupported;
    forall c ensures TrailOf(Ensuring(w, d), c).start == TrailOf(w, c).start {
      EnsureKeepsStart(w, d, c);
    }
    UntouchedSupported(w, Ensuring(w, d));
  }

  /** In every run, streaks in memory and in rows are streaks of the last results. */
  lemma {:induction false} RunKeepsWorldSupported(actions: seq<Action>)
    ensures WorldSupported(Exec(INITIAL, actions))
    ensures forall c, p :: MemorySupported(Exec(INITIAL, actions), c, p)
    decreases |actions|
  {
    if actions != [] {
      hide WorldSupported, Consistent, Do;
      var init := actions[..|actions| - 1];
      RunKeepsWorldSupported(init);
      RunKeepsConsistent(init);
      StepKeepsWorldSupported(Exec(INITIAL, init), actions[|actions| - 1]);
    }
    ReachedIsSupported(actions);
  }

  lemma ReachedIsSupported(actions: seq<Action>)
    requires WorldSupported(Exec(INITIAL, actions))
    ensures forall c, p :: MemorySupported(Exec(INITIAL, actions), c, p)
  {
    var w := Exec(INITIAL, actions);
    RunKeepsConsistent(actions);
    ConsistentParts(w);
    hide Exec, Consistent, QuorumsTraced, LifeSupported, Supported;
    forall c, p ensures MemorySupported(w, c, p) {
      assert LifeSupported(w, c);
      ChildIsSupported(w, c, p);
    }
  }
}
