/** Result batches (internal/monitoring/result.go): what one accepted batch does to the runtime and what it writes. */
module Results {
  import opened MonitoringTypes
  import opened CheckMachines
  import opened QuorumMachines
  import opened StoreTables

  /** Current monitoring truth in memory. */
  datatype RuntimeState = RuntimeState(probes: map<ProbeId, ProbeRuntimeState>, quorums: map<CheckId, Quorum>)

  /** The parts of a check definition that monitoring reads; an empty webhook asks for no alerts. */
  datatype CheckDef = CheckDef(id: CheckId, interval: int, webhook: string)

  datatype ObservedResult = ObservedResult(check: CheckDef, probe: ProbeId, up: bool, at: Time)

  datatype IncidentWrite = IncidentWrite(resolve: bool, request: Option<Payload>)

  /** One commit unit: a current-state row and possibly an incident side effect on the same check. */
  datatype MonitoringWrite = MonitoringWrite(row: CheckStateWrite, incident: Option<IncidentWrite>)

  const DEFAULT_INTERVAL := 30
  const SECOND: int := 1_000_000_000

  function EvidenceExpiresAt(check: CheckDef, observedAt: Time): Time {
    observedAt + 2 * (if check.interval <= 0 then DEFAULT_INTERVAL else check.interval) * SECOND
  }

  /** The children counted as down in an alert, by their state rather than by their vote. */
  function DownChildren(checks: Children): set<ProbeId> {
    set p | p in checks && checks[p].state == CheckState.Down
  }

  function NotificationRequest(check: CheckDef, down: bool, q: Quorum): Option<Payload> {
    if check.webhook == "" then None
    else Some(Payload(check.id, down, |DownChildren(q.checks)|, |q.checks|))
  }

  /** The incident side effect of moving a quorum from one aggregate state to another. */
  function IncidentFor(check: CheckDef, q: Quorum, previous: CheckQuorumState): Option<IncidentWrite> {
    if previous.lastStable == Some(QuorumState.Up) && q.state.lastStable == Some(QuorumState.Down) then
      Some(IncidentWrite(false, NotificationRequest(check, true, q)))
    else if previous.incidentOpen && previous.lastStable == Some(QuorumState.Down)
            && q.state.lastStable == Some(QuorumState.Up) then
      Some(IncidentWrite(true, NotificationRequest(check, false, q)))
    else None
  }

  // ---- One item -------------------------------------------------------------------------------

  function QuorumOf(rt: RuntimeState, c: CheckId): Quorum {
    if c in rt.quorums then rt.quorums[c] else NEW_QUORUM
  }

  /** The runtime once c has a quorum. */
  function Ensured(rt: RuntimeState, c: CheckId): RuntimeState {
    if c in rt.quorums then rt else rt.(quorums := rt.quorums[c := NEW_QUORUM])
  }

  /** The quorum after a result: the probe joins first if it is new. */
  function Reported(q: Quorum, probe: ProbeId, up: bool, at: Time, expiresAt: Time): Quorum {
    ObservedBy(Joined(q, probe), probe, up, at, Some(expiresAt))
  }

  datatype Rollback = Rollback(
    check: CheckId,
    probe: ProbeId,
    createdQuorum: bool,
    createdAssignment: bool,
    previousCheck: CheckExecState,
    previousQuorum: CheckQuorumState)

  datatype Applied = Applied(rt: RuntimeState, write: MonitoringWrite, rollback: Rollback)

  function ItemQuorum(rt: RuntimeState, item: ObservedResult): Quorum {
    Reported(QuorumOf(rt, item.check.id), item.probe, item.up, item.at, EvidenceExpiresAt(item.check, item.at))
  }

  /** One accepted result of a known probe. */
  function ApplyItem(rt: RuntimeState, item: ObservedResult): Applied {
    var c, p := item.check.id, item.probe;
    var before := QuorumOf(rt, c);
    var after := ItemQuorum(rt, item);
    Applied(
      rt.(quorums := rt.quorums[c := after]),
      MonitoringWrite(CheckStateWrite(c, p, after.checks[p]), IncidentFor(item.check, after, before.state)),
      Rollback(c, p, c !in rt.quorums, p !in before.checks, Joined(before, p).checks[p], before.state))
  }

  /** Takes one item back. */
  function Undo(rt: RuntimeState, r: Rollback): RuntimeState {
    if r.createdQuorum then rt.(quorums := rt.quorums - {r.check})
    else if r.check !in rt.quorums then rt
    else
      var checks := Reverted(rt.quorums[r.check].checks, r.probe, r.createdAssignment, r.previousCheck);
      rt.(quorums := rt.quorums[r.check := Quorum(r.previousQuorum, checks)])
  }

  lemma UndoReverts(rt: RuntimeState, item: ObservedResult)
    ensures var a := ApplyItem(rt, item); Undo(a.rt, a.rollback) == rt
  {
    var a := ApplyItem(rt, item);
    var c, p := item.check.id, item.probe;
    if c in rt.quorums {
      var q := rt.quorums[c];
      assert Undo(a.rt, a.rollback).quorums[c].checks == q.checks;
      assert Undo(a.rt, a.rollback).quorums == rt.quorums;
    } else {
      assert Undo(a.rt, a.rollback).quorums == rt.quorums;
    }
  }

  // ---- Whole batches ---------------------------------------------------------------------------

  datatype Batch = Batch(rt: RuntimeState, writes: seq<MonitoringWrite>, rollbacks: seq<Rollback>)

  /** Applying the items in order. */
  function ApplyItems(rt: RuntimeState, items: seq<ObservedResult>): Batch {
    if items == [] then Batch(rt, [], [])
    else
      var b := ApplyItems(rt, items[..|items| - 1]);
      var a := ApplyItem(b.rt, items[|items| - 1]);
      Batch(a.rt, b.writes + [a.write], b.rollbacks + [a.rollback])
  }

  /** Taking items back in reverse order. */
  function UndoAll(rt: RuntimeState, rollbacks: seq<Rollback>): RuntimeState
    decreases |rollbacks|
  {
    if rollbacks == [] then rt
    else UndoAll(Undo(rt, rollbacks[|rollbacks| - 1]), rollbacks[..|rollbacks| - 1])
  }

  /**
    Rollback is exact: it restores the quorum set, assignments, child states and quorum states, even
    when the batch created quorums or assignments and hit the same check and probe repeatedly.
   */
  lemma {:induction false} UndoAllReverts(rt: RuntimeState, items: seq<ObservedResult>)
    ensures var b := ApplyItems(rt, items); UndoAll(b.rt, b.rollbacks) == rt
  {
    if items != [] {
      var b := ApplyItems(rt, items[..|items| - 1]);
      var last := items[|items| - 1];
      var all := ApplyItems(rt, items);
      assert all.rollbacks[|all.rollbacks| - 1] == ApplyItem(b.rt, last).rollback;
      assert all.rollbacks[..|all.rollbacks| - 1] == b.rollbacks;
      UndoReverts(b.rt, last);
      UndoAllReverts(rt, items[..|items| - 1]);
    }
  }

  // ---- Incident side effects ---------------------------------------------------------------------

  /** What every quorum in memory keeps. */
  ghost predicate QuorumOk(q: Quorum) {
    && Sound(q.state)
    && Settled(q)
    && forall p | p in q.checks :: Coherent(q.checks[p])
  }

  lemma ReportKeepsOk(q: Quorum, p: ProbeId, up: bool, at: Time, expiresAt: Time)
    requires QuorumOk(q)
    ensures QuorumOk(Joined(q, p)) && QuorumOk(Reported(q, p, up, at, expiresAt))
  {
    if p !in q.checks {
      RecomputeSettles(q.(checks := q.checks[p := NEW_CHECK]));
    }
    var j := Joined(q, p);
    RecomputeSettles(j.(checks := j.checks[p := Observed(j.checks[p], up, at, Some(expiresAt))]));
  }

  lemma LossKeepsOk(q: Quorum, p: ProbeId)
    requires QuorumOk(q) && p in q.checks
    ensures QuorumOk(LostBy(q, p))
  {
    RecomputeSettles(q.(checks := q.checks[p := Lost(q.checks[p])]));
  }

  /**
    Although one result may recompute twice, its write opens an incident exactly when the flag goes up,
    resolves one exactly when the flag comes down, and is silent otherwise.
   */
  lemma WriteFollowsFlag(check: CheckDef, q: Quorum, p: ProbeId, up: bool, at: Time, expiresAt: Time)
    requires QuorumOk(q)
    ensures var r := Reported(q, p, up, at, expiresAt);
            var w := IncidentFor(check, r, q.state);
            && (w.Some? && !w.value.resolve <==> !q.state.incidentOpen && r.state.incidentOpen)
            && (w.Some? && w.value.resolve <==> q.state.incidentOpen && !r.state.incidentOpen)
  {
    ReportKeepsOk(q, p, up, at, expiresAt);
    if p !in q.checks {
      FlagFollowsStableState(q.(checks := q.checks[p := NEW_CHECK]));
    }
    var j := Joined(q, p);
    FlagFollowsStableState(j.(checks := j.checks[p := Observed(j.checks[p], up, at, Some(expiresAt))]));
  }

  /** The same for an evidence loss, which recomputes once. */
  lemma LossWriteFollowsFlag(check: CheckDef, q: Quorum, p: ProbeId)
    requires QuorumOk(q) && p in q.checks
    ensures var r := LostBy(q, p);
            var w := IncidentFor(check, r, q.state);
            && (w.Some? && !w.value.resolve <==> !q.state.incidentOpen && r.state.incidentOpen)
            && (w.Some? && w.value.resolve <==> q.state.incidentOpen && !r.state.incidentOpen)
  {
    FlagFollowsStableState(q.(checks := q.checks[p := Lost(q.checks[p])]));
  }

  // ---- Alert bodies --------------------------------------------------------------------------------

  /** A down alert reports a strict majority down; a recovery alert reports less than half down. */
  predicate AlertOk(p: Payload) {
    if p.down then 2 * p.probesDown > p.probesTotal else 2 * p.probesDown < p.probesTotal
  }

  predicate AlertsOk(w: Option<IncidentWrite>) {
    w.Some? && w.value.request.Some? ==> AlertOk(w.value.request.value) && w.value.request.value.down == !w.value.resolve
  }

  lemma DownMajorityCounts(checks: Children, open: bool)
    requires forall p | p in checks :: Coherent(checks[p])
    requires Majority(Voters(checks, open, CheckState.Down), checks)
    ensures 2 * |DownChildren(checks)| > |checks|
  {
    assert Voters(checks, open, CheckState.Down) == DownChildren(checks);
  }

  lemma GatedUpMajorityCounts(checks: Children)
    requires forall p | p in checks :: Coherent(checks[p])
    requires Majority(Voters(checks, true, CheckState.Up), checks)
    ensures 2 * |DownChildren(checks)| < |checks|
  {
    var ups := Voters(checks, true, CheckState.Up);
    assert ups !! DownChildren(checks);
    SubsetCardinality(ups + DownChildren(checks), checks.Keys);
  }

  /** A new probe's first result casts no down vote and no gated up vote. */
  lemma FirstResultCastsNoVote(checks: Children, p: ProbeId, up: bool, at: Time, expiresAt: Option<Time>)
    requires p in checks && checks[p] == NEW_CHECK
    ensures var after := checks[p := Observed(NEW_CHECK, up, at, expiresAt)];
            && |after| == |checks|
            && Voters(after, true, CheckState.Up) == Voters(checks, true, CheckState.Up)
            && Voters(after, true, CheckState.Down) == Voters(checks, true, CheckState.Down)
  {
    assert checks[p := Observed(NEW_CHECK, up, at, expiresAt)].Keys == checks.Keys;
  }

  /** The vote behind a flip still stands in the children that the alert counts. */
  lemma FlipLeavesMajority(q: Quorum, p: ProbeId, up: bool, at: Time, expiresAt: Time)
    requires QuorumOk(q)
    ensures var r := Reported(q, p, up, at, expiresAt);
            && (!q.state.incidentOpen && r.state.incidentOpen ==> Majority(Voters(r.checks, true, CheckState.Down), r.checks))
            && (q.state.incidentOpen && !r.state.incidentOpen ==> Majority(Voters(r.checks, true, CheckState.Up), r.checks))
  {
    ReportKeepsOk(q, p, up, at, expiresAt);
    var j, r := Joined(q, p), Reported(q, p, up, at, expiresAt);
    GatingShrinksUpVotes(j.checks);
    GatingShrinksUpVotes(r.checks);
    if p !in q.checks {
      FirstResultCastsNoVote(j.checks, p, up, at, Some(expiresAt));
    }
  }

  /** Every alert queued by a result batch is truthful, whichever of its recomputes flipped the quorum. */
  lemma ReportAlertsOk(check: CheckDef, q: Quorum, p: ProbeId, up: bool, at: Time, expiresAt: Time)
    requires QuorumOk(q)
    ensures AlertsOk(IncidentFor(check, Reported(q, p, up, at, expiresAt), q.state))
  {
    var r := Reported(q, p, up, at, expiresAt);
    ReportKeepsOk(q, p, up, at, expiresAt);
    WriteFollowsFlag(check, q, p, up, at, expiresAt);
    FlipLeavesMajority(q, p, up, at, expiresAt);
    if !q.state.incidentOpen && r.state.incidentOpen {
      DownMajorityCounts(r.checks, true);
    } else if q.state.incidentOpen && !r.state.incidentOpen {
      GatedUpMajorityCounts(r.checks);
    }
  }

  /** Every alert queued by an evidence sweep is truthful. */
  lemma LossAlertsOk(check: CheckDef, q: Quorum, p: ProbeId)
    requires QuorumOk(q) && p in q.checks
    ensures AlertsOk(IncidentFor(check, LostBy(q, p), q.state))
  {
    var r := LostBy(q, p);
    LossKeepsOk(q, p);
    LossWriteFollowsFlag(check, q, p);
    if !q.state.incidentOpen && r.state.incidentOpen {
      DownMajorityCounts(r.checks, false);
    } else if q.state.incidentOpen && !r.state.incidentOpen {
      GatedUpMajorityCounts(r.checks);
    }
  }
}
