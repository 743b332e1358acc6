/**
  Whole runs of the monitoring server: the runtime in memory, the durable store, and every step that
  changes either. A step that holds the runtime lock is atomic; a store transaction commits whole or
  fails. Beside the state, a world carries each quorum's trail, the log of each assignment, which only
  ever grows, and a journal of the incident writes; no step reads them.
 */
module MonitoringRuns {
  import opened MonitoringTypes
  import opened CheckMachines
  import opened EvidenceTrails
  import opened StoreTables
  import opened NotificationLifecycle
  import opened Results
  import opened Sweepers
  import opened Recovery

  /** An incident write: on an active check or not, and whether it found what it needed in the store. */
  datatype JournalEntry = JournalEntry(check: CheckId, resolve: bool, active: bool, hit: bool)

  type Logs = map<ProbeId, seq<Event>>

  datatype World = World(
    rt: RuntimeState,
    db: Db,
    trails: map<CheckId, Trail>,
    log: map<CheckId, Logs>,
    journal: seq<JournalEntry>)

  const INITIAL := World(RuntimeState(map[], map[]), EMPTY_DB, map[], map[], [])

  datatype Action =
    | ResultBatch(items: seq<ObservedResult>, now: Time, persistOk: bool)
    | SweepEvidence(check: CheckId, probe: ProbeId, now: Time, lookup: Lookup, persistOk: bool)
    | ExpireProbe(probe: ProbeId, now: Time, offlineAfter: int)
    | Heartbeat(probe: ProbeId, at: Time, persistOk: bool)
    | AddProbe(probe: ProbeId)
    | EnsureCheck(check: CheckId)
    | RemoveCheck(check: CheckId)
    | Transaction(step: StoreStep)
    | Restart

  // ---- Steps -----------------------------------------------------------------------------------

  function LogsOf(w: World, c: CheckId): Logs {
    if c in w.log then w.log[c] else map[]
  }

  /** What happened to one assignment since the beginning. */
  function LogAt(w: World, c: CheckId, p: ProbeId): seq<Event> {
    if p in LogsOf(w, c) then LogsOf(w, c)[p] else []
  }

  /** The life of a quorum that is created now. */
  function NewTrail(w: World, c: CheckId): Trail {
    Trail(Traced(NEW_QUORUM, LogsOf(w, c)), [])
  }

  function TrailOf(w: World, c: CheckId): Trail {
    if c in w.trails then w.trails[c] else NewTrail(w, c)
  }

  /** One monitoring write inside its transaction: the row, then the incident side effect. */
  function PersistWrite(db: Db, write: MonitoringWrite, now: Time): Db {
    var upserted := Apply(db, Upsert(write.row, now));
    match write.incident
    case None => upserted
    case Some(i) => Apply(upserted, if i.resolve then Resolve(write.row.check, i.request, now) else Open(write.row.check, i.request, now))
  }

  /** Beside incidents and notifications, a monitoring write touches its own row only. */
  lemma PersistTouches(db: Db, write: MonitoringWrite, now: Time)
    ensures var db' := PersistWrite(db, write, now);
            db'.checks == db.checks && db'.probes == db.probes && db'.rows == Upserted(db, write.row, now).rows
  {
    hide Normalized, WithNotification, SupersedeAll, FindOpen;
  }

  /** PersistMonitoringBatch: all writes in order, in one transaction. */
  function PersistBatch(db: Db, writes: seq<MonitoringWrite>, now: Time): Db {
    if writes == [] then db else PersistWrite(PersistBatch(db, writes[..|writes| - 1], now), writes[|writes| - 1], now)
  }

  function JournalOf(db: Db, write: MonitoringWrite): seq<JournalEntry> {
    match write.incident
    case None => []
    case Some(i) =>
      var c := write.row.check;
      [JournalEntry(c, i.resolve, Active(db, c), if i.resolve then HasOpen(db, c) else !HasOpen(db, c))]
  }

  /** The quorum of c moved to q by the given recomputes, and the write was committed. */
  function Committing(w: World, c: CheckId, q: Quorum, ops: seq<Op>, write: MonitoringWrite, now: Time): World {
    var trail := TrailOf(w, c);
    var trail' := trail.(ops := trail.ops + ops);
    World(
      w.rt.(quorums := w.rt.quorums[c := q]),
      PersistWrite(w.db, write, now),
      w.trails[c := trail'],
      w.log[c := Now(trail').hist],
      w.journal + JournalOf(w.db, write))
  }

  /** The recomputes one result makes: two for a probe that is new to the check. */
  function ItemOps(q: Quorum, item: ObservedResult): seq<Op> {
    (if item.probe in q.checks then [] else [Join(item.probe)]) +
    [Observe(item.probe, item.up, item.at, Some(EvidenceExpiresAt(item.check, item.at)))]
  }

  function CommitItem(w: World, item: ObservedResult, now: Time): World {
    var a := ApplyItem(w.rt, item);
    var c := item.check.id;
    Committing(w, c, a.rt.quorums[c], ItemOps(QuorumOf(w.rt, c), item), a.write, now)
  }

  function CommitItems(w: World, items: seq<ObservedResult>, now: Time): World {
    if items == [] then w
    else CommitItem(CommitItems(w, items[..|items| - 1], now), items[|items| - 1], now)
  }

  /** Results of known probes for checks the store once returned, though they may be deleted by now. */
  predicate Acceptable(w: World, items: seq<ObservedResult>) {
    forall i | 0 <= i < |items| :: items[i].probe in w.rt.probes && items[i].check.id in w.db.checks
  }

  function Losing(t: Trail, p: ProbeId): Trail {
    if p in Now(t).q.checks then t.(ops := t.ops + [Lose(p)]) else t
  }

  /** An assignment that a restart reloads as its row has it. */
  predicate Reloads(db: Db, c: CheckId, p: ProbeId) {
    && Active(db, c) && c != NoCheck && p in db.probes && p != NoProbe && db.probes[p].Some?
    && (c, p) in db.rows
  }

  /** The evidence of some probes is lost. */
  function Forgotten(logs: Logs, lost: set<ProbeId>): Logs {
    map p | p in logs.Keys + lost :: (if p in logs then logs[p] else []) + (if p in lost then [LostEvidence] else [])
  }

  function Assigned(quorums: map<CheckId, Quorum>, c: CheckId): set<ProbeId> {
    if c in quorums then quorums[c].checks.Keys else {}
  }

  /** A restart loses the evidence of every assignment, in memory before or after it, that it does not reload. */
  function RestartedLogs(w: World, c: CheckId): Logs {
    var known := Assigned(w.rt.quorums, c) + Assigned(Recovered(w.db).quorums, c);
    Forgotten(LogsOf(w, c), set p | p in known && !Reloads(w.db, c, p))
  }

  /** An active check cannot be reported missing, and a check that is found is the one asked for. */
  predicate LookupPossible(db: Db, c: CheckId, lookup: Lookup) {
    && (lookup.NotFound? ==> !Active(db, c))
    && (lookup.Found? ==> lookup.check.id == c)
  }

  function Sweeping(w: World, c: CheckId, p: ProbeId, now: Time, lookup: Lookup, persistOk: bool): World {
    var swept := SweepAssignment(w.rt, c, p, now, lookup, persistOk);
    if swept.outcome.Committed? && LookupPossible(w.db, c, lookup) then
      Committing(w, c, swept.rt.quorums[c], [Lose(p)], swept.outcome.write, now)
    else w
  }

  function Expiring(w: World, p: ProbeId, now: Time, offlineAfter: int): World {
    if p !in w.rt.probes || !HeartbeatStale(w.rt.probes[p], now, offlineAfter) then w
    else
      var trails := map c | c in w.trails :: Losing(w.trails[c], p);
      w.(rt := SweepProbe(w.rt, p, now, offlineAfter),
         trails := trails,
         log := map c | c in w.log.Keys + trails.Keys :: if c in trails then Now(trails[c]).hist else w.log[c])
  }

  function Beating(w: World, p: ProbeId, at: Time): World {
    if p !in w.rt.probes then w
    else w.(rt := w.rt.(probes := w.rt.probes[p := Beaten(w.rt.probes[p], at)]),
            db := if p in w.db.probes then w.db.(probes := w.db.probes[p := Some(at)]) else w.db)
  }

  function Ensuring(w: World, c: CheckId): World {
    if c !in w.db.checks || c in w.rt.quorums then w
    else w.(rt := w.rt.(quorums := w.rt.quorums[c := NEW_QUORUM]), trails := w.trails[c := NewTrail(w, c)])
  }

  function Removing(w: World, c: CheckId): World {
    if Active(w.db, c) then w
    else w.(rt := w.rt.(quorums := w.rt.quorums - {c}),
            trails := w.trails - {c},
            log := w.log[c := Forgotten(LogsOf(w, c), Assigned(w.rt.quorums, c))])
  }

  function Restarting(w: World): World {
    var rt := Recovered(w.db);
    w.(rt := rt,
       trails := map c | c in rt.quorums :: Trail(Traced(rt.quorums[c], RestartedLogs(w, c)), []),
       log := map c | c in w.log.Keys + w.rt.quorums.Keys + rt.quorums.Keys :: RestartedLogs(w, c))
  }

  /** One step; a step that is not possible, or that failed and was undone, leaves the world as it was. */
  function Do(w: World, a: Action): World {
    match a
    case ResultBatch(items, now, persistOk) =>
      // A rejected item or a failed persist rolls the whole batch back.
      if Acceptable(w, items) && persistOk then CommitItems(w, items, now) else w
    case SweepEvidence(c, p, now, lookup, persistOk) => Sweeping(w, c, p, now, lookup, persistOk)
    case ExpireProbe(p, now, offlineAfter) => Expiring(w, p, now, offlineAfter)
    case Heartbeat(p, at, persistOk) => if persistOk then Beating(w, p, at) else w
    case AddProbe(p) =>
      if p == NoProbe || p in w.rt.probes then w else w.(rt := w.rt.(probes := w.rt.probes[p := NEW_PROBE]))
    case EnsureCheck(c) => Ensuring(w, c)
    case RemoveCheck(c) => Removing(w, c)
    case Transaction(s) =>
      // Rows and incidents are written by monitoring steps only; check IDs are never empty.
      if s.Upsert? || s.Open? || s.Resolve? || s == Create(NoCheck) then w else w.(db := Apply(w.db, s))
    case Restart => Restarting(w)
  }

  function Exec(w: World, actions: seq<Action>): World {
    if actions == [] then w else Do(Exec(w, actions[..|actions| - 1]), actions[|actions| - 1])
  }

  lemma ExecSnoc(w: World, actions: seq<Action>, a: Action)
    ensures Exec(w, actions + [a]) == Do(Exec(w, actions), a)
  {
    assert (actions + [a])[..|actions|] == actions;
  }

  lemma BatchOfOne(w: World, item: ObservedResult, now: Time)
    requires item.probe in w.rt.probes && item.check.id in w.db.checks
    ensures Do(w, ResultBatch([item], now, true)) == CommitItem(w, item, now)
  {
    hide CommitItem;
    assert [item][..0] == [];
    assert CommitItems(w, [item], now) == CommitItem(CommitItems(w, [], now), item, now);
  }

  /** Committing item by item is applying the whole batch in memory and then persisting all its writes at once. */
  lemma {:induction false} BatchIsOneTransaction(w: World, items: seq<ObservedResult>, now: Time)
    ensures var b := ApplyItems(w.rt, items);
            var w' := CommitItems(w, items, now);
            w'.rt == b.rt && w'.db == PersistBatch(w.db, b.writes, now)
  {
    if items != [] {
      var init, last := items[..|items| - 1], items[|items| - 1];
      BatchIsOneTransaction(w, init, now);
      var b := ApplyItems(w.rt, init);
      var a := ApplyItem(b.rt, last);
      var writes := ApplyItems(w.rt, items).writes;
      assert writes == b.writes + [a.write] && writes[..|writes| - 1] == b.writes;
      assert CommitItem(CommitItems(w, init, now), last, now).rt == a.rt;
    }
  }
}
