/**
  Start-up (internal/monitoring/recovery.go, and NewRuntime with uniqueIDs in runtime.go): the runtime is
  built row by row. Whatever order the store lists its rows in, and whatever order the maps are visited in,
  the result is the one function Recovered of the store.
 */
module RuntimeLoading {
  import opened MonitoringTypes
  import opened QuorumMachines
  import opened StoreTables
  import opened Results
  import opened Sweepers
  import opened Recovery
  import opened Runtimes

  datatype StateRow = StateRow(check: CheckId, probe: ProbeId, child: CheckExecState)
  datatype ProbeRow = ProbeRow(probe: ProbeId, lastSeenAt: Option<Time>)

  /** What the four recovery queries return together, each in any order. */
  datatype Listing = Listing(checks: seq<CheckId>, probes: seq<ProbeRow>, rows: seq<StateRow>, open: seq<CheckId>)

  ghost predicate Lists(l: Listing, db: Db) {
    && (forall c :: c in l.checks <==> Active(db, c))
    && (forall p :: p in db.probes <==> ProbeListed(l.probes, p))
    && (forall r | r in l.probes :: r.probe in db.probes && db.probes[r.probe] == r.lastSeenAt)
    && (forall c, p :: (c, p) in db.rows <==> RowListed(l.rows, c, p))
    && (forall r | r in l.rows :: (r.check, r.probe) in db.rows && db.rows[(r.check, r.probe)] == r.child)
    && (forall c :: c in l.open <==> Active(db, c) && HasOpen(db, c))
  }

  ghost predicate ProbeListed(probes: seq<ProbeRow>, p: ProbeId) {
    exists i :: 0 <= i < |probes| && probes[i].probe == p
  }

  ghost predicate RowListed(rows: seq<StateRow>, c: CheckId, p: ProbeId) {
    exists i :: 0 <= i < |rows| && rows[i].check == c && rows[i].probe == p
  }

  /** uniqueIDs: no blank, no duplicate, the same IDs otherwise, and each in the place it first had. */
  method UniqueIds<T(==, !new)>(ids: seq<T>, blank: T) returns (unique: seq<T>)
    ensures forall x :: x in unique <==> x in ids && x != blank
    ensures forall i, j | 0 <= i < j < |unique| :: unique[i] != unique[j]
    ensures FirstSeen(ids, unique)
  {
    unique := [];
    var seen: set<T> := {};
    for k := 0 to |ids|
      invariant seen == set x | x in unique
      invariant forall x :: x in unique <==> x in ids[..k] && x != blank
      invariant forall i, j | 0 <= i < j < |unique| :: unique[i] != unique[j]
      invariant FirstSeen(ids[..k], unique)
    {
      FirstSeenExtends(ids[..k], unique, ids[k]);
      assert ids[..k + 1] == ids[..k] + [ids[k]];
      if ids[k] != blank && ids[k] !in seen {
        seen := seen + {ids[k]};
        unique := unique + [ids[k]];
      }
    }
    assert ids[..|ids|] == ids;
  }

  ghost predicate FirstAt<T(!new)>(ids: seq<T>, x: T, i: nat) {
    i < |ids| && ids[i] == x && forall j | 0 <= j < i :: ids[j] != x
  }

  ghost predicate FirstSeen<T(!new)>(ids: seq<T>, unique: seq<T>) {
    forall a, b, i, j | 0 <= a < b < |unique| && FirstAt(ids, unique[a], i) && FirstAt(ids, unique[b], j) :: i < j
  }

  lemma FirstSeenExtends<T(!new)>(ids: seq<T>, unique: seq<T>, x: T)
    requires FirstSeen(ids, unique) && forall y | y in unique :: y in ids
    ensures FirstSeen(ids + [x], unique)
    ensures x !in ids ==> FirstSeen(ids + [x], unique + [x])
  {
    forall y, i: nat | y in ids && FirstAt(ids + [x], y, i) ensures FirstAt(ids, y, i) {
      var k :| 0 <= k < |ids| && ids[k] == y;
      assert (ids + [x])[k] == y;
      assert forall j | 0 <= j < |ids| :: (ids + [x])[j] == ids[j];
    }
    assert forall i | x !in ids && FirstAt(ids + [x], x, i) :: i == |ids|;
  }

  // ---- Loading, as seen on values ---------------------------------------------------------------

  /** The children of every quorum. What a quorum concludes while rows are loaded is not kept. */
  ghost function Kids(quorums: map<CheckId, Quorum>): map<CheckId, Children> {
    map c | c in quorums :: quorums[c].checks
  }

  lemma RowLoadedKids(rt: RuntimeState, c: CheckId, p: ProbeId, child: CheckExecState)
    ensures var kids := Kids(rt.quorums);
            var after := RowLoaded(rt, c, p, child);
            && after.probes == rt.probes
            && Kids(after.quorums) == if c in kids && p in rt.probes then kids[c := kids[c][p := child]] else kids
  {
    if c in rt.quorums && p in rt.probes {
      var was := rt.quorums[c].checks;
      assert Joined(rt.quorums[c], p).checks == if p in was then was else was[p := NEW_CHECK];
      assert RowLoaded(rt, c, p, child).quorums[c].checks == was[p := child];
    }
  }

  /** The children of one quorum once the evidence of some probes is lost. */
  ghost function LostOf(checks: Children, lost: set<ProbeId>): Children {
    map p | p in checks :: RecoveredChild(checks[p], p !in lost)
  }

  ghost function LostIn(kids: map<CheckId, Children>, lost: set<ProbeId>): map<CheckId, Children> {
    map c | c in kids :: LostOf(kids[c], lost)
  }

  lemma DegradedKids(quorums: map<CheckId, Quorum>, p: ProbeId)
    ensures Kids(DegradeAll(quorums, p)) == LostIn(Kids(quorums), {p})
  {
    forall c | c in quorums ensures Degraded(quorums[c], p).checks == LostOf(quorums[c].checks, {p}) {
    }
  }

  /** Evidence is lost once: losing it probe by probe is losing it together. */
  lemma LostTogether(kids: map<CheckId, Children>, lost: set<ProbeId>, p: ProbeId)
    ensures LostIn(LostIn(kids, lost), {p}) == LostIn(kids, lost + {p})
  {
    forall c | c in kids ensures LostOf(LostOf(kids[c], lost), {p}) == LostOf(kids[c], lost + {p}) {
    }
  }

  lemma NothingLost(kids: map<CheckId, Children>)
    ensures LostIn(kids, {}) == kids
  {
    forall c | c in kids ensures LostOf(kids[c], {}) == kids[c] {
    }
  }

  /** The children of one quorum once some of the rows are loaded. */
  ghost function LoadedOf(db: Db, c: CheckId, probes: set<ProbeId>, rows: seq<StateRow>): Children {
    map p | p in probes && (c, p) in db.rows && RowListed(rows, c, p) :: db.rows[(c, p)]
  }

  ghost function LoadedKids(db: Db, checks: set<CheckId>, probes: set<ProbeId>, rows: seq<StateRow>): map<CheckId, Children> {
    map c | c in checks :: LoadedOf(db, c, probes, rows)
  }

  lemma NothingListed(db: Db, quorums: map<CheckId, Quorum>, probes: set<ProbeId>)
    requires forall c | c in quorums :: quorums[c].checks == map[]
    ensures Kids(quorums) == LoadedKids(db, quorums.Keys, probes, [])
  {
    forall c | c in quorums ensures LoadedOf(db, c, probes, []) == map[] {
    }
  }

  ghost predicate RowsFrom(rows: seq<StateRow>, db: Db) {
    forall r | r in rows :: (r.check, r.probe) in db.rows && db.rows[(r.check, r.probe)] == r.child
  }

  lemma RowListedNext(rows: seq<StateRow>, r: StateRow, c: CheckId, p: ProbeId)
    ensures RowListed(rows + [r], c, p) <==> RowListed(rows, c, p) || (r.check == c && r.probe == p)
  {
    if RowListed(rows, c, p) {
      var i :| 0 <= i < |rows| && rows[i].check == c && rows[i].probe == p;
      assert (rows + [r])[i] == rows[i];
    }
    assert (rows + [r])[|rows|] == r;
  }

  lemma LoadedNext(db: Db, checks: set<CheckId>, probes: set<ProbeId>, rows: seq<StateRow>, r: StateRow)
    requires RowsFrom(rows + [r], db)
    ensures var kids := LoadedKids(db, checks, probes, rows);
            LoadedKids(db, checks, probes, rows + [r])
            == if r.check in kids && r.probe in probes then kids[r.check := kids[r.check][r.probe := r.child]] else kids
  {
    assert (rows + [r])[|rows|] == r;
    forall c, p ensures RowListed(rows + [r], c, p) <==> RowListed(rows, c, p) || (r.check == c && r.probe == p) {
      RowListedNext(rows, r, c, p);
    }
    forall c | c in checks
      ensures LoadedOf(db, c, probes, rows + [r])
              == if c == r.check && r.probe in probes then LoadedOf(db, c, probes, rows)[r.probe := r.child]
                 else LoadedOf(db, c, probes, rows)
    {
    }
  }

  /** The probes once some of the probe rows are read. */
  ghost function SeenProbes(db: Db, ids: set<ProbeId>, rows: seq<ProbeRow>): map<ProbeId, ProbeRuntimeState> {
    map p | p in ids :: if p in db.probes && ProbeListed(rows, p) then RecoveredProbe(db.probes[p]) else NEW_PROBE
  }

  ghost predicate ProbesFrom(rows: seq<ProbeRow>, db: Db) {
    forall r | r in rows :: r.probe in db.probes && db.probes[r.probe] == r.lastSeenAt
  }

  lemma SeenNext(db: Db, ids: set<ProbeId>, rows: seq<ProbeRow>, r: ProbeRow)
    requires ProbesFrom(rows + [r], db)
    ensures var probes := SeenProbes(db, ids, rows);
            SeenProbes(db, ids, rows + [r])
            == if r.probe in ids && r.lastSeenAt.Some? then probes[r.probe := ProbeRuntimeState(Online, r.lastSeenAt)] else probes
  {
    assert (rows + [r])[|rows|] == r;
    forall p ensures ProbeListed(rows + [r], p) <==> ProbeListed(rows, p) || r.probe == p {
      if ProbeListed(rows, p) {
        var i :| 0 <= i < |rows| && rows[i].probe == p;
        assert (rows + [r])[i] == rows[i];
      }
    }
  }

  /** The quorums with some of them still to be started over. */
  ghost function StartedBut(was: map<CheckId, Quorum>, rest: set<CheckId>, open: set<CheckId>): map<CheckId, Quorum> {
    map c | c in was :: if c in rest then was[c] else RecoveredQuorum(was[c].checks, c in open)
  }

  lemma StartedNext(was: map<CheckId, Quorum>, rest: set<CheckId>, open: set<CheckId>, c: CheckId)
    requires c in was && c in rest
    ensures var now := StartedBut(was, rest, open);
            now[c := RecoveredQuorum(now[c].checks, c in open)] == StartedBut(was, rest - {c}, open)
  {
    hide RecoveredQuorum;
  }

  /** The four steps together give the recovered runtime. */
  lemma StepsRecover(l: Listing, db: Db, checks: set<CheckId>, probes: set<ProbeId>, was: map<CheckId, Quorum>)
    requires Lists(l, db)
    requires forall c :: c in checks <==> c in l.checks && c != NoCheck
    requires forall p :: p in probes <==> p in db.probes && p != NoProbe
    requires Kids(was) == LostIn(LoadedKids(db, checks, probes, l.rows), Unseen(SeenProbes(db, probes, l.probes)))
    ensures RuntimeState(SeenProbes(db, probes, l.probes), StartedBut(was, {}, set c | c in l.open)) == Recovered(db)
  {
    hide RecoveredQuorum, RecoveredChildren, LoadedOf, LostOf, Unseen;
    assert was.Keys == Kids(was).Keys == checks;
    forall c | c in checks ensures was[c].checks == RecoveredChildren(db, c) {
      assert was[c].checks == Kids(was)[c];
      ChildrenRecover(l, db, c, probes);
    }
    assert SeenProbes(db, probes, l.probes) == Recovered(db).probes;
  }

  lemma ChildrenRecover(l: Listing, db: Db, c: CheckId, probes: set<ProbeId>)
    requires Lists(l, db)
    requires forall p :: p in probes <==> p in db.probes && p != NoProbe
    ensures LostOf(LoadedOf(db, c, probes, l.rows), Unseen(SeenProbes(db, probes, l.probes))) == RecoveredChildren(db, c)
  {
    hide Active, HasOpen, RowListed, ProbeListed, RecoveredChild;
    var unseen := Unseen(SeenProbes(db, probes, l.probes));
    forall p | p in probes ensures p in unseen <==> db.probes[p].None? {
      assert ProbeListed(l.probes, p);
    }
    assert forall p | p in probes && (c, p) in db.rows :: RowListed(l.rows, c, p);
  }

  function Unseen(probes: map<ProbeId, ProbeRuntimeState>): set<ProbeId> {
    set p | p in probes && probes[p].lastHeartbeatAt == None
  }

  // ---- Loading, in place ------------------------------------------------------------------------

  /** Exactly the listed keys, all with one value. */
  ghost predicate AllAre<K(!new), V>(m: map<K, V>, keys: seq<K>, v: V) {
    (forall k :: k in m <==> k in keys) && forall k | k in m :: m[k] == v
  }

  lemma AllAreNext<K(!new), V>(m: map<K, V>, keys: seq<K>, k: K, v: V)
    requires AllAre(m, keys, v)
    ensures AllAre(m[k := v], keys + [k], v)
    ensures k in m ==> AllAre(m, keys + [k], v)
  {
  }

  /** NewRuntime: every listed check pending, every listed probe offline. */
  method NewRuntime(checkIds: seq<CheckId>, probeIds: seq<ProbeId>) returns (rt: Runtime)
    ensures fresh(rt) && rt.Valid() && fresh(rt.probes.Values) && fresh(rt.quorums.Values) && fresh(rt.Children())
    ensures forall p :: p in rt.Abs().probes <==> p in probeIds && p != NoProbe
    ensures forall p | p in rt.Abs().probes :: rt.Abs().probes[p] == NEW_PROBE
    ensures forall c :: c in rt.Abs().quorums <==> c in checkIds && c != NoCheck
    ensures forall c | c in rt.Abs().quorums :: rt.Abs().quorums[c] == NEW_QUORUM
  {
    hide Runtime.Valid, Runtime.Abs, Runtime.Children;
    var checks := UniqueIds(checkIds, NoCheck);
    var probes := UniqueIds(probeIds, NoProbe);
    rt := new Runtime();
    for i := 0 to |checks|
      invariant fresh(rt) && rt.Valid() && fresh(rt.probes.Values) && fresh(rt.quorums.Values) && fresh(rt.Children())
      invariant rt.Abs().probes == map[] && AllAre(rt.Abs().quorums, checks[..i], NEW_QUORUM)
    {
      assert checks[..i + 1] == checks[..i] + [checks[i]];
      AllAreNext(rt.Abs().quorums, checks[..i], checks[i], NEW_QUORUM);
      var quorum := rt.EnsureQuorum(checks[i]);
    }
    for i := 0 to |probes|
      invariant fresh(rt) && rt.Valid() && fresh(rt.probes.Values) && fresh(rt.quorums.Values) && fresh(rt.Children())
      invariant AllAre(rt.Abs().probes, probes[..i], NEW_PROBE) && AllAre(rt.Abs().quorums, checks, NEW_QUORUM)
    {
      assert probes[..i + 1] == probes[..i] + [probes[i]];
      assert probes[i] in probes;
      AllAreNext(rt.Abs().probes, probes[..i], probes[i], NEW_PROBE);
      rt.KeysAreKept();
      rt.AddProbe(probes[i]);
    }
  }

  method LoadRows(rt: Runtime, rows: seq<StateRow>, ghost db: Db)
    requires rt.Valid() && RowsFrom(rows, db)
    requires forall c | c in rt.Abs().quorums :: rt.Abs().quorums[c].checks == map[]
    modifies rt.quorums.Values, rt.Children()
    ensures rt.Valid() && rt.probes == old(rt.probes) && rt.quorums == old(rt.quorums)
    ensures fresh(rt.Children() - old(rt.Children()))
    ensures rt.Abs().probes == old(rt.Abs()).probes
    ensures Kids(rt.Abs().quorums) == LoadedKids(db, old(rt.Abs()).quorums.Keys, rt.Abs().probes.Keys, rows)
  {
    hide Runtime.Valid, Runtime.Abs, RowLoaded, LoadedOf;
    rt.KeysAreKept();
    NothingListed(db, rt.Abs().quorums, rt.Abs().probes.Keys);
    for i := 0 to |rows|
      invariant rt.Valid() && rt.probes == old(rt.probes) && rt.quorums == old(rt.quorums)
      invariant fresh(rt.Children() - old(rt.Children()))
      invariant rt.Abs().probes == old(rt.Abs()).probes
      invariant Kids(rt.Abs().quorums) == LoadedKids(db, old(rt.Abs()).quorums.Keys, rt.Abs().probes.Keys, rows[..i])
    {
      ghost var before := rt.Abs();
      var row := rows[i];
      assert rows[..i + 1] == rows[..i] + [row];
      LoadedNext(db, old(rt.Abs()).quorums.Keys, before.probes.Keys, rows[..i], row);
      RowLoadedKids(before, row.check, row.probe, row.child);
      rt.LoadRow(row.check, row.probe, row.child);
    }
    assert rows[..|rows|] == rows;
  }

  method MarkAllSeen(rt: Runtime, rows: seq<ProbeRow>, ghost db: Db)
    requires rt.Valid() && ProbesFrom(rows, db)
    requires forall p | p in rt.Abs().probes :: rt.Abs().probes[p] == NEW_PROBE
    modifies rt.probes.Values
    ensures rt.Valid() && rt.probes == old(rt.probes) && rt.quorums == old(rt.quorums)
    ensures rt.Abs() == RuntimeState(SeenProbes(db, old(rt.Abs()).probes.Keys, rows), old(rt.Abs()).quorums)
  {
    for i := 0 to |rows|
      invariant rt.Valid() && rt.probes == old(rt.probes) && rt.quorums == old(rt.quorums)
      invariant rt.Abs() == RuntimeState(SeenProbes(db, old(rt.Abs()).probes.Keys, rows[..i]), old(rt.Abs()).quorums)
    {
      var row := rows[i];
      assert rows[..i + 1] == rows[..i] + [row];
      SeenNext(db, old(rt.Abs()).probes.Keys, rows[..i], row);
      if row.lastSeenAt.Some? {
        rt.MarkSeen(row.probe, row.lastSeenAt.value);
      }
    }
    assert rows[..|rows|] == rows;
  }

  /** A probe without any liveness evidence does not contribute its old votes; probes visited in any order. */
  method DegradeUnseen(rt: Runtime)
    requires rt.Valid()
    modifies rt.quorums.Values, rt.Children()
    ensures rt.Valid() && rt.probes == old(rt.probes) && rt.quorums == old(rt.quorums) && rt.Children() <= old(rt.Children())
    ensures rt.Abs().probes == old(rt.Abs()).probes
    ensures Kids(rt.Abs().quorums) == LostIn(Kids(old(rt.Abs()).quorums), Unseen(rt.Abs().probes))
  {
    hide Runtime.Valid, DegradeAll, LostIn;
    ghost var kids := Kids(rt.Abs().quorums);
    ghost var lost: set<ProbeId> := {};
    var rest := rt.probes.Keys;
    NothingLost(kids);
    while rest != {}
      invariant rest <= rt.probes.Keys
      invariant rt.Valid() && rt.probes == old(rt.probes) && rt.quorums == old(rt.quorums) && rt.Children() <= old(rt.Children())
      invariant rt.Abs().probes == old(rt.Abs()).probes
      invariant lost == Unseen(rt.Abs().probes) - rest
      invariant Kids(rt.Abs().quorums) == LostIn(kids, lost)
      decreases rest
    {
      var p :| p in rest;
      rest := rest - {p};
      assert rt.Abs().probes[p] == rt.probes[p].state;
      if rt.probes[p].state.lastHeartbeatAt.None? {
        DegradedKids(rt.Abs().quorums, p);
        LostTogether(kids, lost, p);
        lost := lost + {p};
        rt.ApplyProbeDegradation(p);
      }
    }
    assert lost == Unseen(rt.Abs().probes);
  }

  /** Every quorum starts over from what the store says about its incident; quorums visited in any order. */
  method StartAllOver(rt: Runtime, open: set<CheckId>)
    requires rt.Valid()
    modifies rt.quorums.Values
    ensures rt.Valid() && rt.probes == old(rt.probes) && rt.quorums == old(rt.quorums) && rt.Children() <= old(rt.Children())
    ensures rt.Abs() == old(rt.Abs()).(quorums := StartedBut(old(rt.Abs()).quorums, {}, open))
  {
    ghost var was := rt.Abs();
    var rest := rt.quorums.Keys;
    assert StartedBut(was.quorums, rest, open) == was.quorums;
    while rest != {}
      invariant rest <= rt.quorums.Keys
      invariant rt.Valid() && rt.probes == old(rt.probes) && rt.quorums == old(rt.quorums) && rt.Children() <= old(rt.Children())
      invariant rt.Abs() == was.(quorums := StartedBut(was.quorums, rest, open))
      decreases rest
    {
      var c :| c in rest;
      StartedNext(was.quorums, rest, open, c);
      rest := rest - {c};
      rt.StartOver(c, c in open);
    }
  }

  /** LoadRuntime: the runtime is the function of the store, whatever the order of any listing. */
  method LoadRuntime(l: Listing, ghost db: Db) returns (rt: Runtime)
    requires Lists(l, db)
    ensures fresh(rt) && rt.Valid() && rt.Abs() == Recovered(db)
  {
    hide Runtime.Valid, Runtime.Abs, Recovered, LostIn, LoadedOf, SeenProbes, StartedBut;
    var probeIds: seq<ProbeId> := [];
    for i := 0 to |l.probes|
      invariant forall p :: p in probeIds <==> ProbeListed(l.probes[..i], p)
    {
      assert l.probes[..i + 1] == l.probes[..i] + [l.probes[i]];
      probeIds := probeIds + [l.probes[i].probe];
    }
    assert l.probes[..|l.probes|] == l.probes;
    rt := NewRuntime(l.checks, probeIds);
    ghost var checks, probes := rt.Abs().quorums.Keys, rt.Abs().probes.Keys;
    LoadRows(rt, l.rows, db);
    MarkAllSeen(rt, l.probes, db);
    DegradeUnseen(rt);
    StepsRecover(l, db, checks, probes, rt.Abs().quorums);
    StartAllOver(rt, set c | c in l.open);
  }
}
