/**
  The server puts the runtime and the store together: each section that holds the runtime lock is one step of
  the run model, so whatever is proved of every run holds of the program.
 */
module Servers {
  import opened MonitoringTypes
  import opened QuorumMachines
  import opened StoreTables
  import opened NotificationLifecycle
  import opened Results
  import opened Sweepers
  import opened Recovery
  import opened MonitoringRuns
  import opened RunInvariants
  import opened CrashConsistency
  import opened StoreTransactions
  import opened Runtimes
  import opened RuntimeLoading

  // ---- Writes that monitoring makes are never refused ---------------------------------------------------

  lemma ItemWriteIsValid(w: World, item: ObservedResult, now: Time)
    requires Consistent(w) && item.probe in w.rt.probes && item.check.id in w.db.checks
    ensures Normalized(ApplyItem(w.rt, item).write.row, now).Some?
  {
    hide Consistent, Tally;
    ConsistentParts(w);
    var q := QuorumOf(w.rt, item.check.id);
    TrailLeads(w, item.check.id);
    ReportKeepsOk(q, item.probe, item.up, item.at, EvidenceExpiresAt(item.check, item.at));
    RowRoundTrip(item.check.id, item.probe, ApplyItem(w.rt, item).write.row.child, now, false);
  }

  lemma {:induction false} BatchWritesAreValid(w: World, items: seq<ObservedResult>, now: Time)
    requires Consistent(w) && Acceptable(w, items)
    ensures |ApplyItems(w.rt, items).writes| == |items|
    ensures StoreTransactions.Valid(ApplyItems(w.rt, items).writes, now)
  {
    hide Consistent, Normalized, ApplyItem, CommitItems, PersistBatch;
    if items != [] {
      var init, last := items[..|items| - 1], items[|items| - 1];
      assert forall i | 0 <= i < |init| :: init[i] == items[i];
      BatchWritesAreValid(w, init, now);
      BatchKeepsConsistent(w, init, now);
      BatchIsOneTransaction(w, init, now);
      ItemWriteIsValid(CommitItems(w, init, now), last, now);
    }
  }

  // ---- The server -----------------------------------------------------------------------------------------

  /** The runtime and the store of a world, whose bookkeeping the program does not have. */
  ghost predicate Represents(rt: Runtime, store: Store, w: World)
    reads rt, rt.probes.Values, rt.quorums.Values, rt.Children(), store
  {
    rt.Valid() && rt.Abs() == w.rt && store.Tables() == w.db
  }

  /**
    A result batch is all or nothing, in memory and in the store together: an unknown probe, a refused row or a
    failed commit leaves both exactly as they were.
   */
  method IngestResults(rt: Runtime, store: Store, items: seq<ObservedResult>, now: Time, commitOk: bool) returns (ok: bool)
    requires rt.Valid()
    modifies rt`quorums, rt.quorums.Values, rt.Children(), store
    ensures rt.Valid()
    ensures var b := ApplyItems(old(rt.Abs()), items);
            && (ok <==> (forall i | 0 <= i < |items| :: items[i].probe in old(rt.Abs()).probes)
                        && StoreTransactions.Valid(b.writes, now) && (commitOk || b.writes == []))
            && (ok ==> rt.Abs() == b.rt && store.Tables() == PersistBatch(old(store.Tables()), b.writes, now))
            && (!ok ==> rt.Abs() == old(rt.Abs()) && store.Tables() == old(store.Tables()))
  {
    hide Runtime.Valid, Runtime.Abs, Undo, ApplyItem, Normalized, StoreTransactions.Valid, PersistBatch;
    rt.KeysAreKept();
    ghost var start := rt.Abs();
    var writes, rollbacks;
    ok, writes, rollbacks := rt.ApplyItemsInOrder(items);
    if !ok {
      return;
    }
    ok := store.PersistMonitoringBatch(writes, now, commitOk);
    if !ok {
      UndoAllReverts(start, items);
      rt.RollbackObservedResults(rollbacks);
    }
  }

  /** A result batch is one step of the run model. */
  method ResultBatchStep(rt: Runtime, store: Store, items: seq<ObservedResult>, now: Time, commitOk: bool, ghost w: World)
    returns (ok: bool)
    requires Represents(rt, store, w) && Consistent(w) && forall i | 0 <= i < |items| :: items[i].check.id in w.db.checks
    modifies rt`quorums, rt.quorums.Values, rt.Children(), store
    ensures Represents(rt, store, Do(w, ResultBatch(items, now, ok)))
    ensures ok <==> Acceptable(w, items) && (commitOk || items == [])
  {
    hide Consistent, Runtime.Valid, Runtime.Abs, ApplyItems, CommitItems, PersistBatch, StoreTransactions.Valid;
    if Acceptable(w, items) {
      BatchWritesAreValid(w, items, now);
      BatchIsOneTransaction(w, items, now);
    }
    ok := IngestResults(rt, store, items, now, commitOk);
  }

  /** So is one assignment of an evidence sweep. */
  method SweepEvidenceStep(rt: Runtime, store: Store, c: CheckId, p: ProbeId, now: Time, lookup: Lookup, commitOk: bool, ghost w: World)
    returns (outcome: SweepOutcome)
    requires Represents(rt, store, w) && Consistent(w) && LookupPossible(w.db, c, lookup)
    modifies rt.quorums.Values, rt.Children(), store
    ensures Represents(rt, store, Do(w, SweepEvidence(c, p, now, lookup, commitOk)))
    ensures outcome == SweepAssignment(w.rt, c, p, now, lookup, commitOk).outcome
  {
    hide Consistent, Runtime.Valid, Runtime.Abs, PersistWrite, Normalized, Sweeping, SweepAssignment, StoreTransactions.Valid;
    SweepWriteIsValid(w, c, p, now, lookup, commitOk);
    SweepingEffect(w, c, p, now, lookup, commitOk);
    outcome := rt.SweepLocked(c, p, now, lookup, commitOk);
    if outcome.Committed? {
      OneWriteBatch(w.db, outcome.write, now);
      var ok := store.PersistMonitoringBatch([outcome.write], now, true);
    }
  }

  /** A heartbeat and its durable timestamp. */
  method HeartbeatStep(rt: Runtime, store: Store, p: ProbeId, at: Time, commitOk: bool, ghost w: World) returns (ok: bool)
    requires Represents(rt, store, w)
    modifies rt.probes.Values, store
    ensures Represents(rt, store, Do(w, Heartbeat(p, at, commitOk)))
    ensures ok <==> p in w.rt.probes && commitOk
  {
    hide Runtime.Valid, Runtime.Abs;
    rt.KeysAreKept();
    ok := rt.ApplyHeartbeat(p, at, commitOk);
    if ok {
      store.UpdateHeartbeat(p, at);
    }
  }

  /** One probe of a probe sweep: the store is not touched. */
  method ExpireProbeStep(rt: Runtime, store: Store, p: ProbeId, now: Time, offlineAfter: int, ghost w: World)
    requires Represents(rt, store, w)
    modifies rt.probes.Values, rt.quorums.Values, rt.Children()
    ensures Represents(rt, store, Do(w, ExpireProbe(p, now, offlineAfter)))
  {
    hide Runtime.Valid, Runtime.Abs;
    rt.KeysAreKept();
    if p in rt.probes {
      var _ := rt.ExpireIfStale(p, now, offlineAfter);
    }
  }

  /** Creating a check in memory, once the store has it. */
  method EnsureCheckStep(rt: Runtime, store: Store, c: CheckId, ghost w: World)
    requires Represents(rt, store, w) && c in w.db.checks
    modifies rt`quorums
    ensures Represents(rt, store, Do(w, EnsureCheck(c)))
  {
    hide Runtime.Valid, Runtime.Abs;
    var _ := rt.EnsureQuorum(c);
  }

  /** Deleting a check in the store, and then its runtime state. */
  method DeleteCheckStep(rt: Runtime, store: Store, c: CheckId, now: Time, commitOk: bool, ghost w: World) returns (deleted: bool)
    requires Represents(rt, store, w)
    modifies rt`quorums, store
    ensures deleted == (Active(w.db, c) && commitOk)
    ensures Represents(rt, store, if deleted then Do(Do(w, Transaction(Delete(c, now))), RemoveCheck(c)) else w)
  {
    hide Runtime.Valid, Runtime.Abs;
    deleted := store.DeleteCheck(c, now, commitOk);
    assert rt.Children() == old(rt.Children()) && rt.Abs() == w.rt;
    if deleted {
      rt.RemoveCheck(c);
    }
  }

  method AddProbeStep(rt: Runtime, store: Store, p: ProbeId, ghost w: World)
    requires Represents(rt, store, w)
    modifies rt`probes
    ensures Represents(rt, store, Do(w, Action.AddProbe(p)))
  {
    hide Runtime.Valid, Runtime.Abs;
    rt.KeysAreKept();
    rt.AddProbe(p);
  }

  /** A crash and the start-up after it, whatever order the store lists its rows in. */
  method RestartStep(store: Store, l: Listing, ghost w: World) returns (rt: Runtime)
    requires store.Tables() == w.db && Lists(l, w.db)
    ensures fresh(rt) && Represents(rt, store, Do(w, Restart))
  {
    hide Runtime.Valid, Runtime.Abs, Recovered, Lists;
    rt := LoadRuntime(l, w.db);
  }

  lemma OneWriteBatch(db: Db, write: MonitoringWrite, now: Time)
    ensures PersistBatch(db, [write], now) == PersistWrite(db, write, now)
    ensures StoreTransactions.Valid([write], now) <==> Normalized(write.row, now).Some?
  {
    assert [write][..0] == [];
    assert [write][0] == write;
  }

  /** What a sweep step does to memory and store, without the bookkeeping. */
  lemma SweepingEffect(w: World, c: CheckId, p: ProbeId, now: Time, lookup: Lookup, ok: bool)
    requires LookupPossible(w.db, c, lookup)
    ensures var swept := SweepAssignment(w.rt, c, p, now, lookup, ok);
            var after := Sweeping(w, c, p, now, lookup, ok);
            && after.rt == swept.rt
            && after.db == if swept.outcome.Committed? then PersistWrite(w.db, swept.outcome.write, now) else w.db
  {
    hide LossWrite, LostBy, PersistWrite, JournalOf, TrailOf;
  }

  lemma SweepWriteIsValid(w: World, c: CheckId, p: ProbeId, now: Time, lookup: Lookup, ok: bool)
    requires Consistent(w)
    ensures var swept := SweepAssignment(w.rt, c, p, now, lookup, ok);
            swept.outcome.Committed? ==> Normalized(swept.outcome.write.row, now).Some?
  {
    hide Consistent;
    ConsistentParts(w);
  }
}
