/** A run of the monitoring server as the store sees it: a sequence of transactions. */
module StoreRuns {
  import opened MonitoringTypes
  import opened QuorumMachines
  import opened EvidenceTrails
  import opened StoreTables
  import opened NotificationLifecycle
  import opened Results
  import opened Sweepers
  import opened Recovery
  import opened MonitoringRuns
  import opened ReportedEvidence

  lemma WriteIsTransactions(db: Db, write: MonitoringWrite, now: Time) returns (steps: seq<StoreStep>)
    ensures PersistWrite(db, write, now) == ApplyAll(db, steps)
  {
    hide Apply;
    var up := Upsert(write.row, now);
    match write.incident
    case None =>
      steps := [up];
      assert ApplyAll(db, steps) == ApplyAll(Apply(db, up), []);
    case Some(i) =>
      var s := if i.resolve then Resolve(write.row.check, i.request, now) else Open(write.row.check, i.request, now);
      steps := [up, s];
      assert steps[1..] == [s];
      assert ApplyAll(Apply(db, up), [s]) == ApplyAll(Apply(Apply(db, up), s), []);
  }

  lemma {:induction false} BatchIsTransactions(w: World, items: seq<ObservedResult>, now: Time) returns (steps: seq<StoreStep>)
    ensures CommitItems(w, items, now).db == ApplyAll(w.db, steps)
    decreases |items|
  {
    hide ApplyAll, PersistWrite, JournalOf, TrailOf, Reported;
    if items == [] {
      steps := [];
      NoTransactions(w.db);
    } else {
      var init, last := items[..|items| - 1], items[|items| - 1];
      steps := BatchIsTransactions(w, init, now);
      var w1 := CommitItems(w, init, now);
      var more := WriteIsTransactions(w1.db, ApplyItem(w1.rt, last).write, now);
      ApplyAllAppends(w.db, steps, more);
      steps := steps + more;
    }
  }

  lemma NoTransactions(db: Db)
    ensures ApplyAll(db, []) == db
  {
  }

  lemma OneTransaction(db: Db, s: StoreStep)
    ensures ApplyAll(db, [s]) == Apply(db, s)
  {
    hide Apply;
    assert [s][1..] == [];
    assert ApplyAll(db, [s]) == ApplyAll(Apply(db, s), []);
  }

  lemma StepIsTransactions(w: World, a: Action) returns (steps: seq<StoreStep>)
    ensures Do(w, a).db == ApplyAll(w.db, steps)
  {
    hide ApplyAll, CommitItems, Sweeping, PersistWrite, SweepProbe, Losing, Now, Recovered, RestartedLogs, Forgotten, LostBy;
    NoTransactions(w.db);
    steps := [];
    match a
    case ResultBatch(items, now, ok) =>
      if Acceptable(w, items) && ok {
        steps := BatchIsTransactions(w, items, now);
      }
    case SweepEvidence(c, p, now, lookup, ok) =>
      SweepIsCommitting(w, c, p, now, lookup, ok);
      var swept := SweepAssignment(w.rt, c, p, now, lookup, ok);
      if swept.outcome.Committed? && LookupPossible(w.db, c, lookup) {
        steps := WriteIsTransactions(w.db, swept.outcome.write, now);
      }
    case Heartbeat(p, at, ok) =>
      steps := [SetProbes(Do(w, a).db.probes)];
      OneTransaction(w.db, steps[0]);
    case Transaction(s) =>
      if Do(w, a).db != w.db {
        steps := [s];
        OneTransaction(w.db, s);
      }
    case _ =>
  }

  /** The store sees a run as a sequence of transactions, so what holds of every interleaving of them holds of runs. */
  lemma {:induction false} RunIsTransactions(actions: seq<Action>) returns (steps: seq<StoreStep>)
    ensures Exec(INITIAL, actions).db == ApplyAll(EMPTY_DB, steps)
    decreases |actions|
  {
    hide ApplyAll, Do;
    if actions == [] {
      steps := [];
      NoTransactions(EMPTY_DB);
    } else {
      var init := actions[..|actions| - 1];
      steps := RunIsTransactions(init);
      var more := StepIsTransactions(Exec(INITIAL, init), actions[|actions| - 1]);
      ApplyAllAppends(EMPTY_DB, steps, more);
      steps := steps + more;
    }
  }

  /** In every run, nothing that was ever queued for a check is unfinished once the check is deleted. */
  lemma DeletedChecksAreFinished(actions: seq<Action>)
    ensures GoneAreFinished(Exec(INITIAL, actions).db)
  {
    var steps := RunIsTransactions(actions);
    hide Exec, ApplyAll;
    RunKeepsGone(EMPTY_DB, steps);
  }
}
