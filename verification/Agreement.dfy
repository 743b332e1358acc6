/**
  Memory and store agree about incidents: over whole runs, an active check has its incident flag set in
  memory exactly when it has an unresolved durable incident. A probe sweep persists nothing; Drifts says
  exactly when it breaks the agreement, and the last part shows what restores it.
 */
module Agreement {
  import opened MonitoringTypes
  import opened CheckMachines
  import opened QuorumMachines
  import opened EvidenceTrails
  import opened StoreTables
  import opened NotificationLifecycle
  import opened Results
  import opened Sweepers
  import opened Recovery
  import opened MonitoringRuns
  import opened RunInvariants

  predicate FlagOf(rt: RuntimeState, c: CheckId) {
    QuorumOf(rt, c).state.incidentOpen
  }

  predicate AgreesOn(w: World, c: CheckId) {
    Active(w.db, c) ==> (FlagOf(w.rt, c) <==> HasOpen(w.db, c))
  }

  ghost predicate Agrees(w: World) {
    forall c :: AgreesOn(w, c)
  }

  // ---- The journal of incident writes ------------------------------------------------------------

  /** The incident writes made for c while it was active: false opens, true resolves. */
  function WritesOf(journal: seq<JournalEntry>, c: CheckId): seq<bool> {
    if journal == [] then []
    else
      var e := journal[|journal| - 1];
      WritesOf(journal[..|journal| - 1], c) + (if e.check == c && e.active then [e.resolve] else [])
  }

  /** Open, resolve, open, resolve, and so on. */
  predicate Alternates(s: seq<bool>) {
    forall i | 0 <= i < |s| :: s[i] == (i % 2 == 1)
  }

  /** Durable writes alternate, none of them missed, and the last one says whether an incident is open. */
  predicate Ledger(writes: seq<bool>, known: bool, active: bool, open: bool) {
    && Alternates(writes)
    && (!known ==> writes == [])
    && (active ==> (open <==> |writes| % 2 == 1))
  }

  predicate JournalOn(w: World, c: CheckId) {
    Ledger(WritesOf(w.journal, c), c in w.db.checks, Active(w.db, c), HasOpen(w.db, c))
  }

  ghost predicate JournalOk(w: World) {
    && (forall i | 0 <= i < |w.journal| :: w.journal[i].active ==> w.journal[i].hit)
    && (forall c :: JournalOn(w, c))
  }

  // ---- Unresolved incidents, transaction by transaction ----------------------------------------------

  lemma HasOpenIff(db: Db, c: CheckId)
    ensures HasOpen(db, c) <==> exists i | 0 <= i < |db.incidents| :: OpenAt(db.incidents, i, c)
  {
  }

  lemma OpenEffect(db: Db, c: CheckId, request: Option<Payload>, now: Time, d: CheckId)
    ensures HasOpen(Opened(db, c, request, now), d) <==> HasOpen(db, d) || (d == c && Active(db, c))
  {
    var db' := Opened(db, c, request, now);
    HasOpenIff(db, d);
    HasOpenIff(db', d);
    if db' != db {
      assert forall i | 0 <= i < |db.incidents| :: OpenAt(db.incidents, i, d) == OpenAt(db'.incidents, i, d);
      assert OpenAt(db'.incidents, |db.incidents|, c);
    }
  }

  lemma ResolveEffect(db: Db, c: CheckId, request: Option<Payload>, now: Time, d: CheckId)
    requires IncidentsOk(db)
    ensures HasOpen(Resolved(db, c, request, now), d) <==> HasOpen(db, d) && d != c
  {
    var db' := Resolved(db, c, request, now);
    HasOpenIff(db, d);
    HasOpenIff(db', d);
    if HasOpen(db, c) {
      var id := FindOpen(db.incidents, c).value;
      assert forall i | 0 <= i < |db.incidents| && i != id :: OpenAt(db.incidents, i, d) == OpenAt(db'.incidents, i, d);
      assert !OpenAt(db'.incidents, id, d);
      assert d != c ==> !OpenAt(db.incidents, id, d);
      assert forall i | 0 <= i < |db.incidents| && i != id :: !OpenAt(db.incidents, i, c);
    }
  }

  lemma DeleteEffect(db: Db, c: CheckId, now: Time, d: CheckId)
    ensures HasOpen(Deleted(db, c, now), d) <==> HasOpen(db, d) && !(d == c && Active(db, c))
  {
    var db' := Deleted(db, c, now);
    HasOpenIff(db, d);
    HasOpenIff(db', d);
    if Active(db, c) {
      assert forall i | 0 <= i < |db.incidents| :: OpenAt(db'.incidents, i, d) == (OpenAt(db.incidents, i, d) && d != c);
    }
  }

  /** An incident write on c tells only for c, and there it decides. */
  lemma WriteDecides(db: Db, write: MonitoringWrite, now: Time, d: CheckId)
    requires IncidentsOk(db)
    ensures PersistWrite(db, write, now).checks == db.checks
    ensures var c := write.row.check;
            HasOpen(PersistWrite(db, write, now), d) <==>
              if write.incident.None? || d != c || !Active(db, c) then HasOpen(db, d) else !write.incident.value.resolve
  {
    var c := write.row.check;
    var mid := Upserted(db, write.row, now);
    assert mid.incidents == db.incidents && mid.checks == db.checks;
    match write.incident
    case None =>
    case Some(IncidentWrite(true, request)) =>
      ResolveEffect(mid, c, request, now, d);
      if !Active(db, c) {
        InactiveHasNone(db, c);
      }
    case Some(IncidentWrite(false, request)) =>
      OpenEffect(mid, c, request, now, d);
  }

  lemma InactiveHasNone(db: Db, c: CheckId)
    requires IncidentsOk(db) && !Active(db, c)
    ensures !HasOpen(db, c)
  {
  }

  // ---- Committed monitoring writes --------------------------------------------------------------------

  /** The write of an active check opens exactly when its flag goes up and resolves exactly when it comes down. */
  predicate Follows(incident: Option<IncidentWrite>, before: bool, after: bool) {
    && (incident.Some? && !incident.value.resolve <==> !before && after)
    && (incident.Some? && incident.value.resolve <==> before && !after)
  }

  lemma CommittingKeepsAgreement(w: World, c: CheckId, q: Quorum, ops: seq<Op>, write: MonitoringWrite, now: Time)
    requires IncidentsOk(w.db) && Agrees(w) && write.row.check == c
    requires Active(w.db, c) ==> Follows(write.incident, FlagOf(w.rt, c), q.state.incidentOpen)
    ensures Agrees(Committing(w, c, q, ops, write, now))
  {
    forall d ensures AgreesOn(Committing(w, c, q, ops, write, now), d) {
      WriteDecides(w.db, write, now, d);
      assert AgreesOn(w, d);
    }
  }

  lemma WritesOfStep(journal: seq<JournalEntry>, e: JournalEntry, c: CheckId)
    ensures WritesOf(journal + [e], c) == WritesOf(journal, c) + (if e.check == c && e.active then [e.resolve] else [])
  {
    assert (journal + [e])[..|journal|] == journal;
  }

  /** On an active check in agreement, an incident write always finds what it needs. */
  lemma CommittingHits(w: World, write: MonitoringWrite, after: bool)
    requires AgreesOn(w, write.row.check)
    requires Active(w.db, write.row.check) ==> Follows(write.incident, FlagOf(w.rt, write.row.check), after)
    ensures forall i | 0 <= i < |JournalOf(w.db, write)| :: JournalOf(w.db, write)[i].active ==> JournalOf(w.db, write)[i].hit
  {
  }

  lemma LedgerStep(writes: seq<bool>, known: bool, open: bool)
    requires Ledger(writes, known, true, open) && known
    ensures Ledger(writes + [open], known, true, !open)
  {
  }

  lemma CommittingKeepsJournalOn(w: World, write: MonitoringWrite, now: Time, after: bool, d: CheckId)
    requires IncidentsOk(w.db) && AgreesOn(w, write.row.check) && JournalOn(w, d)
    requires Active(w.db, write.row.check) ==> Follows(write.incident, FlagOf(w.rt, write.row.check), after)
    ensures var db' := PersistWrite(w.db, write, now);
            Ledger(WritesOf(w.journal + JournalOf(w.db, write), d), d in db'.checks, Active(db', d), HasOpen(db', d))
  {
    var c := write.row.check;
    WriteDecides(w.db, write, now, d);
    if write.incident.None? {
      assert w.journal + JournalOf(w.db, write) == w.journal;
    } else {
      WritesOfStep(w.journal, JournalOf(w.db, write)[0], d);
      if d == c && Active(w.db, c) {
        LedgerStep(WritesOf(w.journal, d), true, HasOpen(w.db, c));
      }
    }
  }

  lemma CommittingKeepsJournal(w: World, c: CheckId, q: Quorum, ops: seq<Op>, write: MonitoringWrite, now: Time)
    requires IncidentsOk(w.db) && Agrees(w) && JournalOk(w) && write.row.check == c
    requires Active(w.db, c) ==> Follows(write.incident, FlagOf(w.rt, c), q.state.incidentOpen)
    ensures JournalOk(Committing(w, c, q, ops, write, now))
  {
    assert AgreesOn(w, c);
    CommittingHits(w, write, q.state.incidentOpen);
    forall d ensures JournalOn(Committing(w, c, q, ops, write, now), d) {
      assert JournalOn(w, d);
      CommittingKeepsJournalOn(w, write, now, q.state.incidentOpen, d);
    }
  }

  // ---- Steps that keep the agreement --------------------------------------------------------------------

  ghost predicate InAccord(w: World) {
    Consistent(w) && Agrees(w) && JournalOk(w)
  }

  lemma CommitItemKeepsAccord(w: World, item: ObservedResult, now: Time)
    requires InAccord(w) && item.probe in w.rt.probes && item.check.id in w.db.checks
    ensures InAccord(CommitItem(w, item, now))
    ensures CommitItem(w, item, now).rt.probes == w.rt.probes && CommitItem(w, item, now).db.checks == w.db.checks
  {
    var c := item.check.id;
    CommitItemKeepsConsistent(w, item, now);
    TrailLeads(w, c);
    var q, a := QuorumOf(w.rt, c), ApplyItem(w.rt, item);
    WriteFollowsFlag(item.check, q, item.probe, item.up, item.at, EvidenceExpiresAt(item.check, item.at));
    CommittingKeepsAgreement(w, c, a.rt.quorums[c], ItemOps(q, item), a.write, now);
    CommittingKeepsJournal(w, c, a.rt.quorums[c], ItemOps(q, item), a.write, now);
  }

  lemma {:induction false} BatchKeepsAccord(w: World, items: seq<ObservedResult>, now: Time)
    requires InAccord(w) && Acceptable(w, items)
    ensures InAccord(CommitItems(w, items, now))
    ensures CommitItems(w, items, now).rt.probes == w.rt.probes && CommitItems(w, items, now).db.checks == w.db.checks
  {
    if items != [] {
      var init := items[..|items| - 1];
      assert forall i | 0 <= i < |init| :: init[i] == items[i];
      BatchKeepsAccord(w, init, now);
      CommitItemKeepsAccord(CommitItems(w, init, now), items[|items| - 1], now);
    }
  }

  lemma SweepFollows(w: World, c: CheckId, p: ProbeId, lookup: Lookup)
    requires QuorumsTraced(w) && c in w.rt.quorums && p in w.rt.quorums[c].checks
    requires Active(w.db, c) && LookupPossible(w.db, c, lookup)
    requires var q := w.rt.quorums[c]; q.state.lastStable != LostBy(q, p).state.lastStable ==> !lookup.LookupFailed?
    ensures var q := w.rt.quorums[c];
            Follows(LossWrite(c, p, q, LostBy(q, p), lookup).incident, q.state.incidentOpen, LostBy(q, p).state.incidentOpen)
  {
    SweepFollowsTrail(w, c, p, lookup);
    var q := w.rt.quorums[c];
    LossWriteFollowsFlag(CheckDef(c, 0, ""), q, p);
    if lookup.Found? {
      LossWriteFollowsFlag(lookup.check, q, p);
    }
  }

  lemma SweepKeepsAccord(w: World, c: CheckId, p: ProbeId, now: Time, lookup: Lookup, ok: bool)
    requires InAccord(w)
    ensures InAccord(Sweeping(w, c, p, now, lookup, ok))
  {
    SweepKeepsConsistent(w, c, p, now, lookup, ok);
    var swept := SweepAssignment(w.rt, c, p, now, lookup, ok);
    if swept.outcome.Committed? && LookupPossible(w.db, c, lookup) {
      if Active(w.db, c) {
        SweepFollows(w, c, p, lookup);
      }
      var r := LostBy(w.rt.quorums[c], p);
      CommittingKeepsAgreement(w, c, r, [Lose(p)], swept.outcome.write, now);
      CommittingKeepsJournal(w, c, r, [Lose(p)], swept.outcome.write, now);
    }
  }

  /** A step that moves no flag of an active check and no incident keeps the accord. */
  lemma SilentStepKeepsAccord(w: World, w': World)
    requires InAccord(w) && Consistent(w')
    requires w'.journal == w.journal && w'.db.incidents == w.db.incidents && w'.db.checks == w.db.checks
    requires forall c | Active(w.db, c) :: FlagOf(w'.rt, c) == FlagOf(w.rt, c)
    ensures InAccord(w')
  {
    forall c ensures AgreesOn(w', c) && JournalOn(w', c) {
      assert AgreesOn(w, c) && JournalOn(w, c);
    }
  }

  lemma DeleteKeepsAccordOn(w: World, c: CheckId, now: Time, d: CheckId)
    requires AgreesOn(w, d) && JournalOn(w, d)
    ensures var w' := w.(db := Deleted(w.db, c, now)); AgreesOn(w', d) && JournalOn(w', d)
  {
    DeleteEffect(w.db, c, now, d);
  }

  lemma CreateKeepsAccordOn(w: World, c: CheckId, d: CheckId)
    requires Consistent(w) && AgreesOn(w, d) && JournalOn(w, d)
    ensures var w' := w.(db := Apply(w.db, Create(c))); AgreesOn(w', d) && JournalOn(w', d)
  {
    hide QuorumsTraced, RowsCoherent, AlertsTruthful, NotificationsOk;
    if c == d && c !in w.db.checks {
      InactiveHasNone(w.db, c);
    }
  }

  lemma TransactionKeepsAccord(w: World, s: StoreStep)
    requires InAccord(w)
    ensures InAccord(Do(w, Transaction(s)))
  {
    hide Consistent, AgreesOn, JournalOn;
    var w' := Do(w, Transaction(s));
    TransactionKeepsConsistent(w, s);
    if s.Delete? {
      forall d ensures AgreesOn(w', d) && JournalOn(w', d) {
        assert AgreesOn(w, d) && JournalOn(w, d);
        DeleteKeepsAccordOn(w, s.check, s.now, d);
      }
    } else if s.Create? && s.check != NoCheck {
      forall d ensures AgreesOn(w', d) && JournalOn(w', d) {
        assert AgreesOn(w, d) && JournalOn(w, d);
        CreateKeepsAccordOn(w, s.check, d);
      }
    } else {
      SilentStepKeepsAccord(w, w');
    }
  }

  /** Recovery sets the flag of exactly the active checks with an unresolved incident, whatever memory said before. */
  lemma RestartRestoresAgreement(w: World)
    requires Consistent(w)
    ensures Agrees(Restarting(w))
  {
    forall c ensures AgreesOn(Restarting(w), c) {
      if Active(w.db, c) {
        RecoveryIsSilent(RecoveredChildren(w.db, c), HasOpen(w.db, c));
      }
    }
  }

  lemma RestartKeepsAccord(w: World)
    requires InAccord(w)
    ensures InAccord(Restarting(w))
  {
    RestartKeepsConsistent(w);
    RestartRestoresAgreement(w);
    forall c ensures JournalOn(Restarting(w), c) {
      assert JournalOn(w, c);
    }
  }

  // ---- Probe sweeps -----------------------------------------------------------------------------------------

  /** Losing p's evidence would flip the incident flag of q, and no write would tell the store. */
  predicate Drifts(q: Quorum, p: ProbeId) {
    p in q.checks && LossPromotes(q, p) && (q.state.lastStable == Some(QuorumState.Up) || q.state.incidentOpen)
  }

  lemma DriftFlipsFlag(q: Quorum, p: ProbeId)
    requires QuorumOk(q)
    ensures Degraded(q, p).state.incidentOpen != q.state.incidentOpen <==> Drifts(q, p)
  {
    if p in q.checks {
      LossIsMonotone(q, p);
      FlagFollowsStableState(q.(checks := q.checks[p := Lost(q.checks[p])]));
    }
  }

  /** The probe is not stale, or no active check would drift. */
  ghost predicate QuietExpiry(w: World, p: ProbeId, now: Time, offlineAfter: int) {
    p in w.rt.probes && HeartbeatStale(w.rt.probes[p], now, offlineAfter) ==>
      forall c | c in w.rt.quorums && Active(w.db, c) :: !Drifts(w.rt.quorums[c], p)
  }

  lemma ExpiryFlags(w: World, p: ProbeId, now: Time, offlineAfter: int, c: CheckId)
    requires Consistent(w) && p in w.rt.probes && HeartbeatStale(w.rt.probes[p], now, offlineAfter)
    ensures FlagOf(Expiring(w, p, now, offlineAfter).rt, c) != FlagOf(w.rt, c) <==>
              c in w.rt.quorums && Drifts(w.rt.quorums[c], p)
  {
    if c in w.rt.quorums {
      TrailLeads(w, c);
      DriftFlipsFlag(w.rt.quorums[c], p);
    }
  }

  /** A probe sweep step keeps the agreement exactly when it is quiet. */
  lemma ExpiryKeepsAgreementIff(w: World, p: ProbeId, now: Time, offlineAfter: int)
    requires Consistent(w) && Agrees(w)
    ensures Agrees(Expiring(w, p, now, offlineAfter)) <==> QuietExpiry(w, p, now, offlineAfter)
  {
    var w' := Expiring(w, p, now, offlineAfter);
    if p in w.rt.probes && HeartbeatStale(w.rt.probes[p], now, offlineAfter) {
      forall c ensures Active(w.db, c) ==> (AgreesOn(w', c) <==> !(c in w.rt.quorums && Drifts(w.rt.quorums[c], p))) {
        assert AgreesOn(w, c);
        ExpiryFlags(w, p, now, offlineAfter, c);
      }
      if !QuietExpiry(w, p, now, offlineAfter) {
        var c :| c in w.rt.quorums && Active(w.db, c) && Drifts(w.rt.quorums[c], p);
        assert !AgreesOn(w', c);
      }
    }
  }

  // ---- Whole runs ----------------------------------------------------------------------------------------------

  lemma EnsureKeepsAccord(w: World, c: CheckId)
    requires InAccord(w)
    ensures InAccord(Ensuring(w, c))
  {
    hide Consistent;
    EnsureKeepsConsistent(w, c);
    SilentStepKeepsAccord(w, Ensuring(w, c));
  }

  lemma RemoveKeepsAccordOn(w: World, c: CheckId, d: CheckId)
    requires AgreesOn(w, d) && JournalOn(w, d)
    ensures AgreesOn(Removing(w, c), d) && JournalOn(Removing(w, c), d)
  {
    assert Active(w.db, d) ==> QuorumOf(Removing(w, c).rt, d) == QuorumOf(w.rt, d);
  }

  lemma RemoveKeepsAccord(w: World, c: CheckId)
    requires InAccord(w)
    ensures InAccord(Removing(w, c))
  {
    RemoveKeepsConsistent(w, c);
    forall d ensures AgreesOn(Removing(w, c), d) && JournalOn(Removing(w, c), d) {
      assert AgreesOn(w, d) && JournalOn(w, d);
      RemoveKeepsAccordOn(w, c, d);
    }
  }

  lemma ProbeStepKeepsAccord(w: World, w': World)
    requires InAccord(w) && NoProbe !in w'.rt.probes
    requires w' == w.(rt := w.rt.(probes := w'.rt.probes), db := w.db.(probes := w'.db.probes))
    ensures InAccord(w')
  {
    ProbeStepKeepsConsistent(w, w');
    SilentStepKeepsAccord(w, w');
  }

  lemma ExpiryKeepsAccord(w: World, p: ProbeId, now: Time, offlineAfter: int)
    requires InAccord(w) && QuietExpiry(w, p, now, offlineAfter)
    ensures InAccord(Expiring(w, p, now, offlineAfter))
  {
    ExpiryKeepsConsistent(w, p, now, offlineAfter);
    ExpiryKeepsAgreementIff(w, p, now, offlineAfter);
    forall c ensures JournalOn(Expiring(w, p, now, offlineAfter), c) {
      assert JournalOn(w, c);
    }
  }

  /** Every step keeps the accord, a probe sweep step if it is quiet. */
  lemma StepKeepsAccord(w: World, a: Action)
    requires InAccord(w)
    requires a.ExpireProbe? ==> QuietExpiry(w, a.probe, a.now, a.offlineAfter)
    ensures InAccord(Do(w, a))
  {
    match a
    case ResultBatch(items, now, ok) =>
      if Acceptable(w, items) && ok {
        BatchKeepsAccord(w, items, now);
      }
    case SweepEvidence(c, p, now, lookup, ok) => SweepKeepsAccord(w, c, p, now, lookup, ok);
    case ExpireProbe(p, now, offlineAfter) => ExpiryKeepsAccord(w, p, now, offlineAfter);
    case Transaction(s) => TransactionKeepsAccord(w, s);
    case EnsureCheck(c) => EnsureKeepsAccord(w, c);
    case RemoveCheck(c) => RemoveKeepsAccord(w, c);
    case Restart => RestartKeepsAccord(w);
    case _ => ProbeStepKeepsAccord(w, Do(w, a));
  }

  /** All probe sweep steps of the run are quiet when they happen; without probe sweeps this is no restriction. */
  ghost predicate QuietRun(actions: seq<Action>) {
    forall i | 0 <= i < |actions| && actions[i].ExpireProbe? ::
      QuietExpiry(Exec(INITIAL, actions[..i]), actions[i].probe, actions[i].now, actions[i].offlineAfter)
  }

  /**
    Over every run of result batches, evidence sweeps, heartbeats, check creation and deletion, delivery
    work, restarts and quiet probe sweeps: each active check has its flag set in memory exactly when it
    has an unresolved durable incident; its durable incident writes strictly alternate, starting with an
    open; no open met an open incident, and every resolve found one.
   */
  lemma {:induction false} MemoryAndStoreAgree(actions: seq<Action>)
    requires QuietRun(actions)
    ensures InAccord(Exec(INITIAL, actions))
  {
    if actions == [] {
      assert forall c :: AgreesOn(INITIAL, c) && JournalOn(INITIAL, c);
    } else {
      var init := actions[..|actions| - 1];
      forall i | 0 <= i < |init| && init[i].ExpireProbe?
        ensures QuietExpiry(Exec(INITIAL, init[..i]), init[i].probe, init[i].now, init[i].offlineAfter)
      {
        assert init[..i] == actions[..i] && init[i] == actions[i];
      }
      MemoryAndStoreAgree(init);
      StepKeepsAccord(Exec(INITIAL, init), actions[|actions| - 1]);
    }
  }

  // ---- One check at a time ---------------------------------------------------------------------------------

  lemma CommittingKeepsAgreementOn(w: World, c: CheckId, q: Quorum, ops: seq<Op>, write: MonitoringWrite, now: Time, d: CheckId)
    requires IncidentsOk(w.db) && AgreesOn(w, d) && write.row.check == c
    requires d == c && Active(w.db, c) ==> Follows(write.incident, FlagOf(w.rt, c), q.state.incidentOpen)
    ensures AgreesOn(Committing(w, c, q, ops, write, now), d)
  {
    WriteDecides(w.db, write, now, d);
  }

  lemma ItemKeepsAgreementOn(w: World, item: ObservedResult, now: Time, d: CheckId)
    requires Consistent(w) && AgreesOn(w, d)
    ensures AgreesOn(CommitItem(w, item, now), d)
  {
    var c := item.check.id;
    TrailLeads(w, c);
    hide Committing, QuorumsTraced, RowsCoherent, AlertsTruthful, NotificationsOk, Reported;
    var q, a := QuorumOf(w.rt, c), ApplyItem(w.rt, item);
    WriteFollowsFlag(item.check, q, item.probe, item.up, item.at, EvidenceExpiresAt(item.check, item.at));
    CommittingKeepsAgreementOn(w, c, a.rt.quorums[c], ItemOps(q, item), a.write, now, d);
  }

  lemma {:induction false} BatchKeepsAgreementOn(w: World, items: seq<ObservedResult>, now: Time, d: CheckId)
    requires Consistent(w) && AgreesOn(w, d) && Acceptable(w, items)
    ensures AgreesOn(CommitItems(w, items, now), d)
    decreases |items|
  {
    hide Consistent, AgreesOn, CommitItem;
    if items != [] {
      var init := items[..|items| - 1];
      assert forall i | 0 <= i < |init| :: init[i] == items[i];
      BatchKeepsAgreementOn(w, init, now, d);
      BatchKeepsConsistent(w, init, now);
      ItemKeepsAgreementOn(CommitItems(w, init, now), items[|items| - 1], now, d);
    }
  }

  lemma SweepKeepsAgreementOn(w: World, c: CheckId, p: ProbeId, now: Time, lookup: Lookup, ok: bool, d: CheckId)
    requires Consistent(w) && AgreesOn(w, d)
    ensures AgreesOn(Sweeping(w, c, p, now, lookup, ok), d)
  {
    hide Committing, RowsCoherent, AlertsTruthful, NotificationsOk, Tally;
    var swept := SweepAssignment(w.rt, c, p, now, lookup, ok);
    if swept.outcome.Committed? && LookupPossible(w.db, c, lookup) {
      if Active(w.db, c) {
        SweepFollows(w, c, p, lookup);
      }
      CommittingKeepsAgreementOn(w, c, LostBy(w.rt.quorums[c], p), [Lose(p)], swept.outcome.write, now, d);
    }
  }

  lemma TransactionKeepsAgreementOn(w: World, s: StoreStep, d: CheckId)
    requires Consistent(w) && AgreesOn(w, d)
    ensures AgreesOn(Do(w, Transaction(s)), d)
  {
    hide QuorumsTraced, RowsCoherent, AlertsTruthful, NotificationsOk;
    if s.Delete? {
      DeleteEffect(w.db, s.check, s.now, d);
    } else if s.Create? && s.check == d && d !in w.db.checks {
      InactiveHasNone(w.db, d);
    }
  }

  /** An expiry that does not flip the flag of c. */
  predicate QuietFor(w: World, p: ProbeId, now: Time, offlineAfter: int, c: CheckId) {
    p in w.rt.probes && HeartbeatStale(w.rt.probes[p], now, offlineAfter) && c in w.rt.quorums && Active(w.db, c) ==>
      !Drifts(w.rt.quorums[c], p)
  }

  lemma ExpiryKeepsAgreementOnIff(w: World, p: ProbeId, now: Time, offlineAfter: int, c: CheckId)
    requires Consistent(w) && AgreesOn(w, c)
    ensures AgreesOn(Expiring(w, p, now, offlineAfter), c) <==> QuietFor(w, p, now, offlineAfter, c)
  {
    hide Consistent, Drifts;
    if p in w.rt.probes && HeartbeatStale(w.rt.probes[p], now, offlineAfter) {
      ExpiryFlags(w, p, now, offlineAfter, c);
    }
  }

  /** Steps that move neither the flag of c nor any incident. */
  lemma SilentKeepsAgreementOn(w: World, w': World, c: CheckId)
    requires AgreesOn(w, c) && w'.db.incidents == w.db.incidents && w'.db.checks == w.db.checks
    requires Active(w.db, c) ==> FlagOf(w'.rt, c) == FlagOf(w.rt, c)
    ensures AgreesOn(w', c)
  {
  }

  /** Whatever the journal says: every step keeps the agreement on c, a probe sweep step if it is quiet for c. */
  lemma StepKeepsAgreementOn(w: World, a: Action, c: CheckId)
    requires Consistent(w) && AgreesOn(w, c)
    requires a.ExpireProbe? ==> QuietFor(w, a.probe, a.now, a.offlineAfter, c)
    ensures AgreesOn(Do(w, a), c)
  {
    hide Consistent, AgreesOn, QuietFor, CommitItems, Sweeping, Expiring, Restarting, Apply;
    match a
    case ResultBatch(items, now, ok) =>
      if Acceptable(w, items) && ok {
        BatchKeepsAgreementOn(w, items, now, c);
      }
    case SweepEvidence(d, p, now, lookup, ok) => SweepKeepsAgreementOn(w, d, p, now, lookup, ok, c);
    case ExpireProbe(p, now, offlineAfter) => ExpiryKeepsAgreementOnIff(w, p, now, offlineAfter, c);
    case Transaction(s) => TransactionKeepsAgreementOn(w, s, c);
    case Restart => RestartRestoresAgreement(w);
    case _ => SilentKeepsAgreementOn(w, Do(w, a), c);
  }

  /** The probe sweeps since the last restart, or since the beginning, are quiet for c. */
  ghost predicate QuietSinceRestart(actions: seq<Action>, c: CheckId)
    decreases |actions|
  {
    actions == [] ||
    var init, a := actions[..|actions| - 1], actions[|actions| - 1];
    a.Restart? || (QuietSinceRestart(init, c)
                   && (a.ExpireProbe? ==> QuietFor(Exec(INITIAL, init), a.probe, a.now, a.offlineAfter, c)))
  }

  /**
    Agreement, once restored, lasts: in every run whose probe sweeps since its last restart are quiet for c, memory and
    store agree on c, whatever drifted before and whatever happens to other checks.
   */
  lemma {:induction false} AgreementLasts(actions: seq<Action>, c: CheckId)
    requires QuietSinceRestart(actions, c)
    ensures AgreesOn(Exec(INITIAL, actions), c)
    decreases |actions|
  {
    if actions != [] {
      hide AgreesOn, Consistent, QuietFor;
      var init, a := actions[..|actions| - 1], actions[|actions| - 1];
      RunKeepsConsistent(init);
      if a.Restart? {
        RestartRestoresAgreement(Exec(INITIAL, init));
      } else {
        AgreementLasts(init, c);
        hide Do;
        StepKeepsAgreementOn(Exec(INITIAL, init), a, c);
      }
    }
  }
}
