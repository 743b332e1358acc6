/**
  The durable incidents and the evidence behind them: every incident in the store was appended by a step in which
  the quorum of its check opened one, and was resolved by a step in which it resolved one or by deleting the check.
 */
module DurableIncidents {
  import opened MonitoringTypes
  import opened QuorumMachines
  import opened EvidenceTrails
  import opened StoreTables
  import opened NotificationLifecycle
  import opened Results
  import opened Sweepers
  import opened MonitoringRuns
  import opened RunInvariants
  import opened CrashConsistency

  predicate FlagAt(t: Trail, i: nat)
    requires i <= |t.ops|
  {
    At(t, i).q.state.incidentOpen
  }

  /** The i-th recompute of a life opens an incident, or resolves one. */
  predicate FlipsAt(t: Trail, i: nat, opens: bool) {
    i < |t.ops| && FlagAt(t, i) == !opens && FlagAt(t, i + 1) == opens
  }

  /** A flag that changed between two recomputes changed at one of them. */
  lemma {:induction false} FlipBetween(t: Trail, a: nat, b: nat, opens: bool) returns (i: nat)
    requires a <= b <= |t.ops| && FlagAt(t, a) == !opens && FlagAt(t, b) == opens
    ensures a <= i < b && FlipsAt(t, i, opens)
    decreases b - a
  {
    if FlagAt(t, b - 1) == opens {
      i := FlipBetween(t, a, b - 1, opens);
    } else {
      i := b - 1;
    }
  }

  /** A longer life keeps the flips it had. */
  lemma FlipPersists(t: Trail, ops: seq<Op>, i: nat, opens: bool)
    requires FlipsAt(t, i, opens)
    ensures FlipsAt(t.(ops := t.ops + ops), i, opens)
  {
    assert (t.ops + ops)[..i] == t.ops[..i] && (t.ops + ops)[..i + 1] == t.ops[..i + 1];
  }

  /** What a write does to the incidents: nothing, or it appends one of its check, or it resolves one of its check. */
  lemma WriteTouches(db: Db, write: MonitoringWrite, now: Time) returns (k: nat)
    ensures var c := write.row.check;
            var before, after := db.incidents, PersistWrite(db, write, now).incidents;
            || after == before
            || (write.incident.Some? && !write.incident.value.resolve && after == before + [Incident(c, now, None)])
            || (&& write.incident.Some? && write.incident.value.resolve && k < |before| && OpenAt(before, k, c)
                && after == before[k := before[k].(resolvedAt := Some(now))])
  {
    hide Normalized;
    var open := FindOpen(db.incidents, write.row.check);
    k := if open.Some? then open.value else 0;
  }

  // ---- Accounts of a step -------------------------------------------------------------------------------------

  /** Between two worlds incident k came to be, or came to be resolved. */
  predicate Appears(w: World, w': World, k: nat) {
    |w.db.incidents| <= k < |w'.db.incidents|
  }

  predicate Resolves(w: World, w': World, k: nat) {
    && k < |w'.db.incidents| && w'.db.incidents[k].resolvedAt.Some?
    && (k < |w.db.incidents| ==> w.db.incidents[k].resolvedAt == None)
  }

  /** Recompute i of c lies between two worlds, and opens an incident, or resolves one. */
  predicate FlipsWithin(w: World, w': World, c: CheckId, i: nat, opens: bool) {
    c in w'.trails && |TrailOf(w, c).ops| <= i && FlipsAt(w'.trails[c], i, opens)
  }

  /** Which recompute opened, and which one resolved, an incident. */
  datatype Account = Account(opens: map<nat, nat>, closes: map<nat, nat>)

  /** No recompute accounts for two incidents of a check. */
  ghost predicate Distinct(incidents: seq<Incident>, m: map<nat, nat>) {
    forall j, k | j in m && k in m && j < k < |incidents| && incidents[j].check == incidents[k].check :: m[j] != m[k]
  }

  /** Each entry is a recompute between the two worlds. */
  ghost predicate Flipped(w: World, w': World, m: map<nat, nat>, opens: bool) {
    && (forall k | k in m :: k < |w'.db.incidents| && FlipsWithin(w, w', w'.db.incidents[k].check, m[k], opens))
    && Distinct(w'.db.incidents, m)
  }

  /** The account has exactly the incidents that are new, and exactly those newly resolved. */
  ghost predicate Covers(w: World, w': World, a: Account) {
    && |w.db.incidents| <= |w'.db.incidents|
    && (forall k | 0 <= k < |w.db.incidents| :: w'.db.incidents[k].check == w.db.incidents[k].check)
    && (forall k: nat :: k in a.opens <==> Appears(w, w', k))
    && (forall k: nat :: k in a.closes <==> Resolves(w, w', k))
  }

  /**
    Every incident that is new or newly resolved between two worlds has a recompute of its own check between them
    that opened or resolved it, and no two have the same one.
   */
  ghost predicate Explained(w: World, w': World, a: Account) {
    Covers(w, w', a) && Flipped(w, w', a.opens, true) && Flipped(w, w', a.closes, false)
  }

  lemma AppendCovers(w0: World, w: World, w': World, a: Account, incident: Incident, i: nat)
    requires Covers(w0, w, a) && w'.db.incidents == w.db.incidents + [incident] && incident.resolvedAt == None
    ensures |w.db.incidents| !in a.opens && Covers(w0, w', a.(opens := a.opens[|w.db.incidents| := i]))
  {
  }

  lemma ResolveCovers(w0: World, w: World, w': World, a: Account, k: nat, now: Time, i: nat)
    requires Covers(w0, w, a) && k < |w.db.incidents| && w.db.incidents[k].resolvedAt == None
    requires w'.db.incidents == w.db.incidents[k := w.db.incidents[k].(resolvedAt := Some(now))]
    requires k < |w0.db.incidents| ==> w0.db.incidents[k].resolvedAt == None
    ensures k !in a.closes && Covers(w0, w', a.(closes := a.closes[k := i]))
  {
  }

  /** No life gets shorter. */
  ghost predicate LivesOn(w: World, w': World) {
    forall c :: |TrailOf(w, c).ops| <= |TrailOf(w', c).ops|
  }

  lemma LongerLifeFlips(t: Trail, ops: seq<Op>, opens: bool) returns (i: nat)
    requires Now(t).q.state.incidentOpen == !opens && Run(Now(t), ops).q.state.incidentOpen == opens
    ensures |t.ops| <= i && FlipsAt(t.(ops := t.ops + ops), i, opens)
  {
    hide Step;
    var t' := t.(ops := t.ops + ops);
    RunConcat(t.start, t.ops, ops);
    assert t'.ops[..|t.ops|] == t.ops && t'.ops[..|t'.ops|] == t'.ops;
    i := FlipBetween(t', |t.ops|, |t'.ops|, opens);
  }

  lemma CommittingFlips(w: World, c: CheckId, q: Quorum, ops: seq<Op>, write: MonitoringWrite, now: Time, opens: bool) returns (i: nat)
    requires QuorumsTraced(w) && q == Run(Now(TrailOf(w, c)), ops).q
    requires QuorumOf(w.rt, c).state.incidentOpen == !opens && q.state.incidentOpen == opens
    ensures FlipsWithin(w, Committing(w, c, q, ops, write, now), c, i, opens)
  {
    TrailLeads(w, c);
    hide Step, PersistWrite, JournalOf, QuorumsTraced, FlipsAt, TrailOf, Now, Run;
    i := LongerLifeFlips(TrailOf(w, c), ops, opens);
  }

  lemma CommittingLivesOn(w: World, c: CheckId, q: Quorum, ops: seq<Op>, write: MonitoringWrite, now: Time)
    ensures LivesOn(w, Committing(w, c, q, ops, write, now))
  {
    hide PersistWrite, JournalOf, Now;
  }

  lemma CommittingKeepsFlip(w0: World, w: World, c: CheckId, q: Quorum, ops: seq<Op>, write: MonitoringWrite, now: Time,
                            d: CheckId, i: nat, opens: bool)
    requires FlipsWithin(w0, w, d, i, opens)
    ensures FlipsWithin(w0, Committing(w, c, q, ops, write, now), d, i, opens) && i < |TrailOf(w, d).ops|
  {
    assert i < |w.trails[d].ops|;
    hide PersistWrite, JournalOf, FlipsAt, Now;
    if d == c {
      FlipPersists(w.trails[c], ops, i, opens);
    }
  }

  /** Entries survive a committed write. */
  lemma CommittingKeepsFlipped(w0: World, w: World, c: CheckId, q: Quorum, ops: seq<Op>, write: MonitoringWrite, now: Time,
                               m: map<nat, nat>, opens: bool)
    requires Flipped(w0, w, m, opens)
    requires var w' := Committing(w, c, q, ops, write, now);
             && |w.db.incidents| <= |w'.db.incidents|
             && forall k | 0 <= k < |w.db.incidents| :: w'.db.incidents[k].check == w.db.incidents[k].check
    ensures Flipped(w0, Committing(w, c, q, ops, write, now), m, opens)
    ensures EarlierThan(w, Committing(w, c, q, ops, write, now), m)
  {
    hide Committing, FlipsWithin, TrailOf;
    forall k | k in m
      ensures FlipsWithin(w0, Committing(w, c, q, ops, write, now), w.db.incidents[k].check, m[k], opens)
      ensures m[k] < |TrailOf(w, w.db.incidents[k].check).ops|
    {
      CommittingKeepsFlip(w0, w, c, q, ops, write, now, w.db.incidents[k].check, m[k], opens);
    }
  }

  /** One more entry, for a recompute later than those before it. */
  lemma OneMoreEntry(w0: World, w: World, w': World, m: map<nat, nat>, opens: bool, k: nat, i: nat)
    requires Flipped(w0, w', m, opens) && LivesOn(w0, w) && k !in m && k < |w'.db.incidents|
    requires FlipsWithin(w, w', w'.db.incidents[k].check, i, opens)
    requires EarlierThan(w, w', m)
    ensures Flipped(w0, w', m[k := i], opens)
  {
    hide FlipsAt, TrailOf;
  }

  /** What a write did to the incidents. */
  datatype Change = Nothing | Append(incident: Incident) | Resolve1(k: nat, now: Time)

  ghost predicate Changes(before: seq<Incident>, after: seq<Incident>, change: Change, c: CheckId) {
    match change
    case Nothing => after == before
    case Append(incident) => incident.check == c && incident.resolvedAt == None && after == before + [incident]
    case Resolve1(k, now) => k < |before| && OpenAt(before, k, c) && after == before[k := before[k].(resolvedAt := Some(now))]
  }

  ghost predicate EarlierThan(w: World, w': World, m: map<nat, nat>) {
    forall k | k in m && k < |w'.db.incidents| :: m[k] < |TrailOf(w, w'.db.incidents[k].check).ops|
  }

  /** The account is extended by what changed. */
  lemma Accounting(w0: World, w: World, w': World, a: Account, change: Change, c: CheckId, i: nat) returns (a': Account)
    requires Covers(w0, w, a) && LivesOn(w0, w) && StaysResolved(w0, w)
    requires Flipped(w0, w', a.opens, true) && Flipped(w0, w', a.closes, false)
    requires EarlierThan(w, w', a.opens) && EarlierThan(w, w', a.closes)
    requires Changes(w.db.incidents, w'.db.incidents, change, c)
    requires change.Append? ==> FlipsWithin(w, w', c, i, true)
    requires change.Resolve1? ==> FlipsWithin(w, w', c, i, false)
    ensures Explained(w0, w', a') && StaysResolved(w0, w')
  {
    hide Flipped, FlipsWithin, Covers, LivesOn, TrailOf;
    match change
    case Nothing =>
      a' := a;
      SameCovers(w0, w, w', a);
    case Append(incident) =>
      AppendCovers(w0, w, w', a, incident, i);
      OneMoreEntry(w0, w, w', a.opens, true, |w.db.incidents|, i);
      a' := a.(opens := a.opens[|w.db.incidents| := i]);
    case Resolve1(k, now) =>
      ResolveCovers(w0, w, w', a, k, now, i);
      OneMoreEntry(w0, w, w', a.closes, false, k, i);
      a' := a.(closes := a.closes[k := i]);
  }

  lemma CommittingChanges(w: World, c: CheckId, q: Quorum, ops: seq<Op>, write: MonitoringWrite, now: Time) returns (change: Change)
    requires write.row.check == c
    ensures Changes(w.db.incidents, Committing(w, c, q, ops, write, now).db.incidents, change, c)
    ensures change.Append? ==> write.incident.Some? && !write.incident.value.resolve
    ensures change.Resolve1? ==> write.incident.Some? && write.incident.value.resolve
  {
    var k := WriteTouches(w.db, write, now);
    var after := PersistWrite(w.db, write, now).incidents;
    assert Committing(w, c, q, ops, write, now).db.incidents == after;
    hide PersistWrite, Committing;
    change := if after == w.db.incidents then Nothing
              else if write.incident.value.resolve then Resolve1(k, now) else Append(Incident(c, now, None));
  }

  lemma ChangesKeepChecks(before: seq<Incident>, after: seq<Incident>, change: Change, c: CheckId)
    requires Changes(before, after, change, c)
    ensures |before| <= |after| && forall k | 0 <= k < |before| :: after[k].check == before[k].check
  {
  }

  /** A committed write accounts for what it did, and keeps the account of what was done before it. */
  lemma CommittingExplains(w0: World, w: World, a: Account, c: CheckId, q: Quorum, ops: seq<Op>, write: MonitoringWrite, now: Time)
    returns (a': Account)
    requires Explained(w0, w, a) && LivesOn(w0, w) && StaysResolved(w0, w) && QuorumsTraced(w)
    requires q == Run(Now(TrailOf(w, c)), ops).q && write.row.check == c
    requires write.incident.Some? ==>
               QuorumOf(w.rt, c).state.incidentOpen == write.incident.value.resolve == !q.state.incidentOpen
    ensures var w' := Committing(w, c, q, ops, write, now);
            Explained(w0, w', a') && LivesOn(w0, w') && StaysResolved(w0, w')
  {
    hide Committing, Flipped, FlipsWithin, QuorumsTraced, Run, TrailOf, Now, Covers, StaysResolved, Changes;
    var w' := Committing(w, c, q, ops, write, now);
    var change := CommittingChanges(w, c, q, ops, write, now);
    ChangesKeepChecks(w.db.incidents, w'.db.incidents, change, c);
    CommittingLivesOn(w, c, q, ops, write, now);
    CommittingKeepsFlipped(w0, w, c, q, ops, write, now, a.opens, true);
    CommittingKeepsFlipped(w0, w, c, q, ops, write, now, a.closes, false);
    var i: nat := 0;
    if change != Nothing {
      i := CommittingFlips(w, c, q, ops, write, now, !write.incident.value.resolve);
    }
    a' := Accounting(w0, w, w', a, change, c, i);
  }

  /** What was resolved stays so. */
  ghost predicate StaysResolved(w: World, w': World) {
    && |w.db.incidents| <= |w'.db.incidents|
    && forall k | 0 <= k < |w.db.incidents| && w.db.incidents[k].resolvedAt.Some? :: w'.db.incidents[k].resolvedAt.Some?
  }

  lemma SameCovers(w0: World, w: World, w': World, a: Account)
    requires Covers(w0, w, a) && w'.db.incidents == w.db.incidents
    ensures Covers(w0, w', a)
  {
  }

  // ---- Steps ------------------------------------------------------------------------------------------------

  /** The account so far is right, and nothing was undone. */
  ghost predicate InOrder(w: World, w': World, a: Account) {
    Explained(w, w', a) && LivesOn(w, w') && StaysResolved(w, w')
  }

  lemma NothingYet(w: World)
    ensures InOrder(w, w, Account(map[], map[]))
  {
  }

  lemma ItemExplains(w0: World, w: World, a: Account, item: ObservedResult, now: Time) returns (a': Account)
    requires InOrder(w0, w, a) && Consistent(w) && item.probe in w.rt.probes && item.check.id in w.db.checks
    ensures InOrder(w0, CommitItem(w, item, now), a')
  {
    ConsistentParts(w);
    hide Consistent, Explained, LivesOn, StaysResolved, Committing, Reported, DbOk, AlertsTruthful, Run, Step;
    var c := item.check.id;
    var q, applied := QuorumOf(w.rt, c), ApplyItem(w.rt, item);
    TrailLeads(w, c);
    ItemFollowsOps(Now(TrailOf(w, c)), item);
    WriteFollowsFlag(item.check, q, item.probe, item.up, item.at, EvidenceExpiresAt(item.check, item.at));
    a' := CommittingExplains(w0, w, a, c, applied.rt.quorums[c], ItemOps(q, item), applied.write, now);
  }

  lemma {:induction false} BatchExplains(w: World, items: seq<ObservedResult>, now: Time) returns (a: Account)
    requires Consistent(w) && Acceptable(w, items)
    ensures InOrder(w, CommitItems(w, items, now), a)
    decreases |items|
  {
    hide Consistent, InOrder, CommitItem;
    if items == [] {
      NothingYet(w);
      a := Account(map[], map[]);
    } else {
      var init := items[..|items| - 1];
      assert forall i | 0 <= i < |init| :: init[i] == items[i];
      a := BatchExplains(w, init, now);
      BatchKeepsConsistent(w, init, now);
      a := ItemExplains(w, CommitItems(w, init, now), a, items[|items| - 1], now);
    }
  }

  lemma SweepExplains(w: World, c: CheckId, p: ProbeId, now: Time, lookup: Lookup, ok: bool) returns (a: Account)
    requires Consistent(w)
    ensures InOrder(w, Sweeping(w, c, p, now, lookup, ok), a)
  {
    ConsistentParts(w);
    hide Consistent, Committing, DbOk, AlertsTruthful, Run, Step, Explained, LivesOn, StaysResolved;
    var swept := SweepAssignment(w.rt, c, p, now, lookup, ok);
    NothingYet(w);
    a := Account(map[], map[]);
    if swept.outcome.Committed? && LookupPossible(w.db, c, lookup) {
      SweepFollowsTrail(w, c, p, lookup);
      if lookup.Found? {
        LossWriteFollowsFlag(lookup.check, w.rt.quorums[c], p);
      }
      a := CommittingExplains(w, w, a, c, LostBy(w.rt.quorums[c], p), [Lose(p)], swept.outcome.write, now);
    }
  }

  /** Deleting a check appends no incident and resolves only its own. */
  lemma DeletionResolvesOwn(db: Db, c: CheckId, now: Time)
    ensures |Deleted(db, c, now).incidents| == |db.incidents|
    ensures forall k | 0 <= k < |db.incidents| ::
              && Deleted(db, c, now).incidents[k].check == db.incidents[k].check
              && (db.incidents[k].resolvedAt.Some? ==> Deleted(db, c, now).incidents[k].resolvedAt.Some?)
              && (Deleted(db, c, now).incidents[k] != db.incidents[k] ==> db.incidents[k].check == c)
  {
  }

  predicate Deletes(a: Action, c: CheckId) {
    a.Transaction? && a.step.Delete? && a.step.check == c
  }

  /** What one step did to the incidents: as accounted, or by deleting their check. */
  ghost predicate Accounted(w: World, w': World, action: Action, a: Account) {
    && StaysResolved(w, w')
    && (forall k | 0 <= k < |w.db.incidents| :: w'.db.incidents[k].check == w.db.incidents[k].check)
    && (forall k: nat | Appears(w, w', k) :: k in a.opens)
    && (forall k: nat | Resolves(w, w', k) :: k in a.closes || Deletes(action, w'.db.incidents[k].check))
    && Flipped(w, w', a.opens, true) && Flipped(w, w', a.closes, false)
  }

  lemma StepAccounts(w: World, action: Action) returns (a: Account)
    requires Consistent(w)
    ensures Accounted(w, Do(w, action), action, a)
  {
    hide Consistent, CommitItems, Sweeping, Flipped;
    a := Account(map[], map[]);
    NothingFlipped(w, Do(w, action));
    match action
    case ResultBatch(items, now, ok) =>
      if Acceptable(w, items) && ok {
        a := BatchExplains(w, items, now);
      }
    case SweepEvidence(c, p, now, lookup, ok) => a := SweepExplains(w, c, p, now, lookup, ok);
    case Transaction(step) =>
      if step.Delete? {
        DeletionResolvesOwn(w.db, step.check, step.now);
      }
    case _ => assert Do(w, action).db.incidents == w.db.incidents;
  }

  lemma NothingFlipped(w: World, w': World)
    ensures Flipped(w, w', map[], true) && Flipped(w, w', map[], false)
  {
  }

  // ---- Runs --------------------------------------------------------------------------------------------------

  /** A recompute of a run: the step it belongs to, and its position in the life of its quorum. */
  datatype Moment = Moment(step: nat, at: nat)

  /** Step m.step appended incident k, and its recompute m.at is the one at which the check opened it. */
  ghost predicate OpenedAt(actions: seq<Action>, k: nat, c: CheckId, m: Moment) {
    && m.step < |actions|
    && var w, w' := Exec(INITIAL, actions[..m.step]), Exec(INITIAL, actions[..m.step + 1]);
       Appears(w, w', k) && FlipsWithin(w, w', c, m.at, true)
  }

  /** Step m.step resolved incident k, and its recompute m.at is the one at which the check resolved it. */
  ghost predicate ResolvedAt(actions: seq<Action>, k: nat, c: CheckId, m: Moment) {
    && m.step < |actions|
    && var w, w' := Exec(INITIAL, actions[..m.step]), Exec(INITIAL, actions[..m.step + 1]);
       Resolves(w, w', k) && FlipsWithin(w, w', c, m.at, false)
  }

  /** Some step resolved incident k by deleting its check. */
  ghost predicate DeletedAt(actions: seq<Action>, k: nat, c: CheckId) {
    exists n: nat :: n < |actions| && Deletes(actions[n], c)
                     && Resolves(Exec(INITIAL, actions[..n]), Exec(INITIAL, actions[..n + 1]), k)
  }

  /** No moment accounts for two incidents of a check. */
  ghost predicate DistinctMoments(incidents: seq<Incident>, ms: map<nat, Moment>) {
    forall j, k | j in ms && k in ms && j < k < |incidents| && incidents[j].check == incidents[k].check :: ms[j] != ms[k]
  }

  lemma MomentsPersist(actions: seq<Action>, k: nat, c: CheckId, m: Moment)
    requires actions != []
    ensures var init := actions[..|actions| - 1];
            && (OpenedAt(init, k, c, m) ==> OpenedAt(actions, k, c, m))
            && (ResolvedAt(init, k, c, m) ==> ResolvedAt(actions, k, c, m))
            && (DeletedAt(init, k, c) ==> DeletedAt(actions, k, c))
  {
    hide Exec, FlipsWithin, Appears, Resolves;
    var init := actions[..|actions| - 1];
    assert forall n | 0 <= n <= |init| :: init[..n] == actions[..n];
    if DeletedAt(init, k, c) {
      var n: nat :| n < |init| && Deletes(init[n], c) && Resolves(Exec(INITIAL, init[..n]), Exec(INITIAL, init[..n + 1]), k);
      assert actions[n] == init[n];
    }
  }

  /** The last step of a run and its account. */
  lemma LastStep(actions: seq<Action>) returns (a: Account)
    requires actions != []
    ensures var m := |actions| - 1;
            && actions[..m + 1] == actions
            && Accounted(Exec(INITIAL, actions[..m]), Exec(INITIAL, actions), actions[m], a)
  {
    hide Do, Accounted, Consistent;
    var m := |actions| - 1;
    RunKeepsConsistent(actions[..m]);
    a := StepAccounts(Exec(INITIAL, actions[..m]), actions[m]);
  }

  /** The moments of the incidents of a run: every one has its own. */
  ghost predicate Openings(actions: seq<Action>, ms: map<nat, Moment>) {
    var incidents := Exec(INITIAL, actions).db.incidents;
    && (forall k: nat :: k in ms <==> k < |incidents|)
    && (forall k | k in ms :: OpenedAt(actions, k, incidents[k].check, ms[k]))
    && DistinctMoments(incidents, ms)
  }

  /** The moments of the resolved ones: every one has its own, unless its check was deleted. */
  ghost predicate Resolutions(actions: seq<Action>, ms: map<nat, Moment>) {
    var incidents := Exec(INITIAL, actions).db.incidents;
    && (forall k | k in ms :: k < |incidents| && incidents[k].resolvedAt.Some? && ResolvedAt(actions, k, incidents[k].check, ms[k]))
    && (forall k: nat | k < |incidents| && incidents[k].resolvedAt.Some? :: k in ms || DeletedAt(actions, k, incidents[k].check))
    && DistinctMoments(incidents, ms)
  }

  /** The moments of earlier steps and those of the last one, n. */
  function Merged(before: map<nat, Moment>, last: map<nat, nat>, n: nat): map<nat, Moment> {
    map k | k in before.Keys + last.Keys :: if k in last then Moment(n, last[k]) else before[k]
  }

  lemma JoinedAreDistinct(inc: seq<Incident>, inc': seq<Incident>, before: map<nat, Moment>, last: map<nat, nat>, n: nat)
    requires DistinctMoments(inc, before) && Distinct(inc', last)
    requires forall k | k in before :: k < |inc| <= |inc'| && before[k].step < n && inc'[k].check == inc[k].check
    ensures DistinctMoments(inc', Merged(before, last, n))
  {
  }

  lemma OpeningEntry(actions: seq<Action>, before: map<nat, Moment>, a: Account, k: nat)
    requires actions != [] && Openings(actions[..|actions| - 1], before)
    requires var m := |actions| - 1;
             actions[..m + 1] == actions && Accounted(Exec(INITIAL, actions[..m]), Exec(INITIAL, actions), actions[m], a)
    ensures var m := |actions| - 1;
            var w, w' := Exec(INITIAL, actions[..m]), Exec(INITIAL, actions);
            && (k in before ==>
                  && k < |w.db.incidents| <= |w'.db.incidents| && before[k].step < m
                  && w'.db.incidents[k].check == w.db.incidents[k].check
                  && OpenedAt(actions, k, w'.db.incidents[k].check, before[k]))
            && (Appears(w, w', k) ==> k in a.opens && OpenedAt(actions, k, w'.db.incidents[k].check, Moment(m, a.opens[k])))
  {
    hide Exec, FlipsWithin, TrailOf, DistinctMoments;
    var m := |actions| - 1;
    if k in before {
      MomentsPersist(actions, k, Exec(INITIAL, actions[..m]).db.incidents[k].check, before[k]);
    }
  }

  lemma OpeningsExtend(actions: seq<Action>, before: map<nat, Moment>, a: Account) returns (ms: map<nat, Moment>)
    requires actions != [] && Openings(actions[..|actions| - 1], before)
    requires var m := |actions| - 1;
             actions[..m + 1] == actions && Accounted(Exec(INITIAL, actions[..m]), Exec(INITIAL, actions), actions[m], a)
    ensures Openings(actions, ms)
  {
    hide Exec, FlipsWithin, TrailOf, OpenedAt, DistinctMoments, Distinct;
    var m := |actions| - 1;
    var w, w' := Exec(INITIAL, actions[..m]), Exec(INITIAL, actions);
    var last := map k | k in a.opens && Appears(w, w', k) :: a.opens[k];
    assert Distinct(w'.db.incidents, last) by {
      FewerAreDistinct(w'.db.incidents, a.opens, last);
    }
    forall k: nat {
      OpeningEntry(actions, before, a, k);
    }
    ms := Merged(before, last, m);
    JoinedAreDistinct(w.db.incidents, w'.db.incidents, before, last, m);
  }

  lemma FewerAreDistinct(incidents: seq<Incident>, m: map<nat, nat>, fewer: map<nat, nat>)
    requires Distinct(incidents, m) && forall k | k in fewer :: k in m && fewer[k] == m[k]
    ensures Distinct(incidents, fewer)
  {
  }

  lemma ResolutionEntry(actions: seq<Action>, before: map<nat, Moment>, a: Account, k: nat)
    requires actions != [] && Resolutions(actions[..|actions| - 1], before)
    requires var m := |actions| - 1;
             actions[..m + 1] == actions && Accounted(Exec(INITIAL, actions[..m]), Exec(INITIAL, actions), actions[m], a)
    ensures var m := |actions| - 1;
            var w, w' := Exec(INITIAL, actions[..m]), Exec(INITIAL, actions);
            && (k in before ==>
                  && k < |w.db.incidents| <= |w'.db.incidents| && before[k].step < m
                  && w'.db.incidents[k].check == w.db.incidents[k].check && w'.db.incidents[k].resolvedAt.Some?
                  && !Resolves(w, w', k) && ResolvedAt(actions, k, w'.db.incidents[k].check, before[k]))
            && (k in a.closes && Resolves(w, w', k) ==> ResolvedAt(actions, k, w'.db.incidents[k].check, Moment(m, a.closes[k])))
            && (k < |w'.db.incidents| && w'.db.incidents[k].resolvedAt.Some? && k !in before
                && !(k in a.closes && Resolves(w, w', k)) ==>
                  DeletedAt(actions, k, w'.db.incidents[k].check))
  {
    hide Exec, FlipsWithin, TrailOf, DistinctMoments;
    var m := |actions| - 1;
    var w, w' := Exec(INITIAL, actions[..m]), Exec(INITIAL, actions);
    if k in before {
      MomentsPersist(actions, k, w.db.incidents[k].check, before[k]);
    } else if k < |w'.db.incidents| && w'.db.incidents[k].resolvedAt.Some? && !(k in a.closes && Resolves(w, w', k)) {
      StillDeleted(actions, a, k);
    }
  }

  lemma ResolutionsExtend(actions: seq<Action>, before: map<nat, Moment>, a: Account) returns (ms: map<nat, Moment>)
    requires actions != [] && Resolutions(actions[..|actions| - 1], before)
    requires var m := |actions| - 1;
             actions[..m + 1] == actions && Accounted(Exec(INITIAL, actions[..m]), Exec(INITIAL, actions), actions[m], a)
    ensures Resolutions(actions, ms)
  {
    hide Exec, FlipsWithin, TrailOf, ResolvedAt, DeletedAt, DistinctMoments, Distinct, Covers, Deletes;
    var m := |actions| - 1;
    var w, w' := Exec(INITIAL, actions[..m]), Exec(INITIAL, actions);
    var last := map k | k in a.closes && Resolves(w, w', k) :: a.closes[k];
    assert Distinct(w'.db.incidents, last) by {
      FewerAreDistinct(w'.db.incidents, a.closes, last);
    }
    forall k: nat {
      ResolutionEntry(actions, before, a, k);
    }
    ms := Merged(before, last, m);
    JoinedAreDistinct(w.db.incidents, w'.db.incidents, before, last, m);
  }

  lemma StillDeleted(actions: seq<Action>, a: Account, k: nat)
    requires actions != []
    requires var m := |actions| - 1;
             var w, w' := Exec(INITIAL, actions[..m]), Exec(INITIAL, actions);
             && actions[..m + 1] == actions && Accounted(w, w', actions[m], a)
             && k < |w'.db.incidents| && w'.db.incidents[k].resolvedAt.Some? && !(k in a.closes && Resolves(w, w', k))
             && (Resolves(w, w', k) || (k < |w.db.incidents| && DeletedAt(actions[..m], k, w.db.incidents[k].check)))
    ensures DeletedAt(actions, k, Exec(INITIAL, actions).db.incidents[k].check)
  {
    hide Exec, Flipped;
    var m := |actions| - 1;
    var w, w' := Exec(INITIAL, actions[..m]), Exec(INITIAL, actions);
    if Resolves(w, w', k) {
      assert Deletes(actions[m], w'.db.incidents[k].check);
    } else {
      MomentsPersist(actions, k, w.db.incidents[k].check, Moment(0, 0));
    }
  }

  /**
    Every incident of a run was appended by a step in which its check opened one, at a recompute of that very step;
    no recompute stands for two incidents.
   */
  lemma {:induction false} OpenedBy(actions: seq<Action>) returns (ms: map<nat, Moment>)
    ensures Openings(actions, ms)
    decreases |actions|
  {
    if actions == [] {
      ms := map[];
    } else {
      hide Openings, Exec, Accounted;
      ms := OpenedBy(actions[..|actions| - 1]);
      var a := LastStep(actions);
      ms := OpeningsExtend(actions, ms, a);
    }
  }

  /**
    Every resolved incident of a run was resolved by a step in which its check resolved one, at a recompute of that
    very step, or by deleting the check; no recompute stands for two incidents.
   */
  lemma {:induction false} ResolvedBy(actions: seq<Action>) returns (ms: map<nat, Moment>)
    ensures Resolutions(actions, ms)
    decreases |actions|
  {
    if actions == [] {
      ms := map[];
    } else {
      hide Resolutions, Exec, Accounted;
      ms := ResolvedBy(actions[..|actions| - 1]);
      var a := LastStep(actions);
      ms := ResolutionsExtend(actions, ms, a);
    }
  }
}
