/**
  What a crash can lose. In every run, each vote in memory is backed by the durable row of its assignment,
  so a restart brings back exactly that vote; only lost evidence may be in memory without being durable.
 */
module CrashConsistency {
  import opened MonitoringTypes
  import opened CheckMachines
  import opened QuorumMachines
  import opened EvidenceTrails
  import opened StoreTables
  import opened NotificationLifecycle
  import opened Results
  import opened Sweepers
  import opened Recovery
  import opened MonitoringRuns
  import opened RunInvariants

  predicate SameEvidence(row: CheckExecState, child: CheckExecState) {
    && row.lastOutcome == child.lastOutcome && row.streakLen == child.streakLen && row.state == child.state
    && (child.lastResultAt != ZERO_TIME ==> row.lastResultAt == child.lastResultAt)
  }

  /** A child without an outcome, or with the outcome its row has. */
  predicate Backed(db: Db, c: CheckId, p: ProbeId, child: CheckExecState) {
    child.lastOutcome == None || ((c, p) in db.rows && SameEvidence(db.rows[(c, p)], child))
  }

  ghost predicate QuorumBacked(db: Db, c: CheckId, q: Quorum) {
    forall p | p in q.checks :: Backed(db, c, p, q.checks[p])
  }

  /** Every child of an active check is backed by the store. */
  ghost predicate AllBacked(w: World) {
    forall c | c in w.rt.quorums && Active(w.db, c) :: QuorumBacked(w.db, c, w.rt.quorums[c])
  }

  /** A committed write backs the child it was made for and leaves the rest as it was. */
  lemma CommittingKeepsBacked(w: World, c: CheckId, q: Quorum, ops: seq<Op>, write: MonitoringWrite, now: Time)
    requires Consistent(w) && AllBacked(w) && c in w.db.checks && AlertsOk(write.incident)
    requires write.row.check == c && write.row.probe in q.checks && write.row.child == q.checks[write.row.probe]
    requires Coherent(write.row.child) && write.row.probe != NoProbe
    requires q.checks - {write.row.probe} == QuorumOf(w.rt, c).checks - {write.row.probe}
    ensures AllBacked(Committing(w, c, q, ops, write, now))
  {
    hide Consistent, PersistWrite, JournalOf, TrailOf;
    ConsistentParts(w);
    WriteEffect(w.db, write, now);
    var p := write.row.probe;
    RowRoundTrip(c, p, write.row.child, now, false);
    var w' := Committing(w, c, q, ops, write, now);
    assert w'.db.rows == w.db.rows[(c, p) := Normalized(write.row, now).value];
    forall d | d in w'.rt.quorums && Active(w'.db, d) ensures QuorumBacked(w'.db, d, w'.rt.quorums[d]) {
      if d == c {
        OtherChildrenBacked(w, w'.db, c, p, q);
      } else {
        assert QuorumBacked(w.db, d, w.rt.quorums[d]);
      }
    }
  }

  lemma ConsistentParts(w: World)
    requires Consistent(w)
    ensures DbOk(w.db) && AlertsTruthful(w.db) && QuorumsTraced(w)
    ensures NoCheck !in w.db.checks && NoProbe !in w.rt.probes && w.rt.quorums.Keys <= w.db.checks.Keys
    ensures forall c | c in w.rt.quorums :: NoProbe !in w.rt.quorums[c].checks
  {
  }

  lemma OtherChildrenBacked(w: World, db': Db, c: CheckId, p: ProbeId, q: Quorum)
    requires AllBacked(w) && Active(w.db, c) && p in q.checks && Backed(db', c, p, q.checks[p])
    requires forall k | k in w.db.rows && k != (c, p) :: k in db'.rows && db'.rows[k] == w.db.rows[k]
    requires q.checks - {p} == QuorumOf(w.rt, c).checks - {p}
    ensures QuorumBacked(db', c, q)
  {
    forall r | r in q.checks ensures Backed(db', c, r, q.checks[r]) {
      if r != p {
        assert r in q.checks - {p} && (q.checks - {p})[r] == q.checks[r];
        assert r in QuorumOf(w.rt, c).checks && QuorumOf(w.rt, c).checks[r] == q.checks[r];
        assert QuorumBacked(w.db, c, w.rt.quorums[c]);
      }
    }
  }

  /** A result changes the child of its own probe only. */
  lemma ReportTouchesOne(q: Quorum, p: ProbeId, up: bool, at: Time, expiresAt: Time)
    ensures var r := Reported(q, p, up, at, expiresAt);
            p in r.checks && r.checks - {p} == q.checks - {p}
  {
    hide Tally;
  }

  lemma CommitItemKeepsBacked(w: World, item: ObservedResult, now: Time)
    requires Consistent(w) && AllBacked(w) && item.probe in w.rt.probes && item.check.id in w.db.checks
    ensures AllBacked(CommitItem(w, item, now))
  {
    hide Consistent, Committing, AllBacked, Reported, IncidentFor;
    var c, expiresAt := item.check.id, EvidenceExpiresAt(item.check, item.at);
    ConsistentParts(w);
    hide DbOk, AlertsTruthful;
    TrailLeads(w, c);
    hide QuorumsTraced, TrailOf;
    var q := QuorumOf(w.rt, c);
    ReportKeepsOk(q, item.probe, item.up, item.at, expiresAt);
    ReportTouchesOne(q, item.probe, item.up, item.at, expiresAt);
    ReportAlertsOk(item.check, q, item.probe, item.up, item.at, expiresAt);
    var a := ApplyItem(w.rt, item);
    CommittingKeepsBacked(w, c, a.rt.quorums[c], ItemOps(q, item), a.write, now);
  }

  lemma {:induction false} BatchKeepsBacked(w: World, items: seq<ObservedResult>, now: Time)
    requires Consistent(w) && AllBacked(w) && Acceptable(w, items)
    ensures AllBacked(CommitItems(w, items, now))
  {
    hide Consistent, AllBacked, CommitItem;
    if items != [] {
      var init := items[..|items| - 1];
      assert forall i | 0 <= i < |init| :: init[i] == items[i];
      BatchKeepsBacked(w, init, now);
      BatchKeepsConsistent(w, init, now);
      CommitItemKeepsBacked(CommitItems(w, init, now), items[|items| - 1], now);
    }
  }

  lemma SweepKeepsBacked(w: World, c: CheckId, p: ProbeId, now: Time, lookup: Lookup, ok: bool)
    requires Consistent(w) && AllBacked(w)
    ensures AllBacked(Sweeping(w, c, p, now, lookup, ok))
  {
    hide Consistent, Committing, Tally, AllBacked;
    var swept := SweepAssignment(w.rt, c, p, now, lookup, ok);
    if swept.outcome.Committed? && LookupPossible(w.db, c, lookup) {
      ConsistentParts(w);
      SweepFollowsTrail(w, c, p, lookup);
      LossKeepsOk(w.rt.quorums[c], p);
      CommittingKeepsBacked(w, c, LostBy(w.rt.quorums[c], p), [Lose(p)], swept.outcome.write, now);
    }
  }

  /** A step that keeps the rows and only clears evidence in memory, or drops quorums, keeps every child backed. */
  lemma ClearingKeepsBacked(w: World, w': World)
    requires AllBacked(w) && w'.db.rows == w.db.rows
    requires forall c | c in w'.rt.quorums && Active(w'.db, c) :: c in w.rt.quorums && Active(w.db, c)
    requires forall c, p | c in w'.rt.quorums && c in w.rt.quorums && p in w'.rt.quorums[c].checks ::
               || w'.rt.quorums[c].checks[p].lastOutcome == None
               || (p in w.rt.quorums[c].checks && w'.rt.quorums[c].checks[p] == w.rt.quorums[c].checks[p])
    ensures AllBacked(w')
  {
    forall c | c in w'.rt.quorums && Active(w'.db, c) ensures QuorumBacked(w'.db, c, w'.rt.quorums[c]) {
      assert QuorumBacked(w.db, c, w.rt.quorums[c]);
    }
  }

  lemma ExpiryKeepsBacked(w: World, p: ProbeId, now: Time, offlineAfter: int)
    requires AllBacked(w)
    ensures AllBacked(Expiring(w, p, now, offlineAfter))
  {
    hide AllBacked, Tally;
    ClearingKeepsBacked(w, Expiring(w, p, now, offlineAfter));
  }

  lemma EnsureKeepsBacked(w: World, c: CheckId)
    requires AllBacked(w)
    ensures AllBacked(Ensuring(w, c))
  {
    forall d | d in Ensuring(w, c).rt.quorums && Active(w.db, d) ensures QuorumBacked(w.db, d, Ensuring(w, c).rt.quorums[d]) {
      if d in w.rt.quorums {
        assert QuorumBacked(w.db, d, w.rt.quorums[d]);
      }
    }
  }

  /** Deleting a check drops its own rows only; no other transaction drops any. */
  lemma TransactionKeepsRows(db: Db, s: StoreStep, c: CheckId)
    requires !s.Upsert? && c in db.checks && Active(Apply(db, s), c)
    ensures Active(db, c)
    ensures forall p | (c, p) in db.rows :: (c, p) in Apply(db, s).rows && Apply(db, s).rows[(c, p)] == db.rows[(c, p)]
  {
  }

  lemma TransactionKeepsBacked(w: World, s: StoreStep)
    requires Consistent(w) && AllBacked(w)
    ensures AllBacked(Do(w, Transaction(s)))
  {
    hide Consistent, Apply;
    ConsistentParts(w);
    hide DbOk, AlertsTruthful, QuorumsTraced;
    var w' := Do(w, Transaction(s));
    if w' != w {
      forall c | c in w.rt.quorums && Active(w'.db, c) ensures QuorumBacked(w'.db, c, w.rt.quorums[c]) {
        TransactionKeepsRows(w.db, s, c);
        assert QuorumBacked(w.db, c, w.rt.quorums[c]);
      }
    }
  }

  lemma RestartBacks(w: World)
    ensures AllBacked(Restarting(w))
  {
    hide HasOpen, Tally;
  }

  lemma StepKeepsBacked(w: World, a: Action)
    requires Consistent(w) && AllBacked(w)
    ensures AllBacked(Do(w, a))
  {
    hide Consistent, CommitItems, Sweeping, Expiring, Ensuring, Restarting, Apply;
    match a
    case ResultBatch(items, now, ok) =>
      if Acceptable(w, items) && ok {
        BatchKeepsBacked(w, items, now);
      }
    case SweepEvidence(c, p, now, lookup, ok) => SweepKeepsBacked(w, c, p, now, lookup, ok);
    case ExpireProbe(p, now, offlineAfter) => ExpiryKeepsBacked(w, p, now, offlineAfter);
    case Transaction(s) => TransactionKeepsBacked(w, s);
    case Restart => RestartBacks(w);
    case EnsureCheck(c) => EnsureKeepsBacked(w, c);
    case _ => ClearingKeepsBacked(w, Do(w, a));
  }

  lemma {:induction false} RunKeepsBacked(actions: seq<Action>)
    ensures AllBacked(Exec(INITIAL, actions))
  {
    if actions != [] {
      var init := actions[..|actions| - 1];
      RunKeepsConsistent(init);
      RunKeepsBacked(init);
      StepKeepsBacked(Exec(INITIAL, init), actions[|actions| - 1]);
    }
  }

  /**
    A crash loses no vote: in every run, whatever failed or was swept, a vote that an assignment of an active check
    casts in memory is the vote it casts after a restart, for every probe that is not revoked and was ever seen.
   */
  lemma CrashKeepsVotes(actions: seq<Action>, c: CheckId, p: ProbeId, open: bool)
    requires var w := Exec(INITIAL, actions);
             && Active(w.db, c) && c in w.rt.quorums && p in w.rt.quorums[c].checks
             && p in w.db.probes && w.db.probes[p].Some?
             && Contribution(w.rt.quorums[c].checks[p], open) != Missing
    ensures var w := Exec(INITIAL, actions);
            var after := Do(w, Restart).rt.quorums;
            && c in after && p in after[c].checks
            && Contribution(after[c].checks[p], open) == Contribution(w.rt.quorums[c].checks[p], open)
            && SameEvidence(after[c].checks[p], w.rt.quorums[c].checks[p])
  {
    hide Exec, Consistent, AllBacked, Contribution, SameEvidence, Restarting;
    RunKeepsConsistent(actions);
    RunKeepsBacked(actions);
    VoteSurvives(Exec(INITIAL, actions), c, p, open);
  }

  lemma VoteSurvives(w: World, c: CheckId, p: ProbeId, open: bool)
    requires Consistent(w) && AllBacked(w) && Active(w.db, c) && c in w.rt.quorums && p in w.rt.quorums[c].checks
    requires p in w.db.probes && w.db.probes[p].Some? && Contribution(w.rt.quorums[c].checks[p], open) != Missing
    ensures var after := Restarting(w).rt.quorums;
            && c in after && p in after[c].checks
            && Contribution(after[c].checks[p], open) == Contribution(w.rt.quorums[c].checks[p], open)
            && SameEvidence(after[c].checks[p], w.rt.quorums[c].checks[p])
  {
    hide Consistent, Restarting;
    ConsistentParts(w);
    hide DbOk, AlertsTruthful, QuorumsTraced;
    assert QuorumBacked(w.db, c, w.rt.quorums[c]);
    assert Backed(w.db, c, p, w.rt.quorums[c].checks[p]);
    RestartReloads(w, c, p);
  }

  lemma RestartReloads(w: World, c: CheckId, p: ProbeId)
    requires Active(w.db, c) && c != NoCheck && p in w.db.probes && p != NoProbe && w.db.probes[p].Some? && (c, p) in w.db.rows
    ensures var after := Restarting(w).rt.quorums;
            c in after && p in after[c].checks && after[c].checks[p] == w.db.rows[(c, p)]
  {
    hide HasOpen, Tally;
  }
}
