/** Stale-evidence and stale-probe sweeps (internal/monitoring/sweepers.go, heartbeat.go, probe_machine.go). */
module Sweepers {
  import opened MonitoringTypes
  import opened CheckMachines
  import opened QuorumMachines
  import opened StoreTables
  import opened Results

  // ---- Evidence sweeps ----------------------------------------------------------------------

  /** Evidence that an evidence sweep at time now may clear. */
  predicate Stale(c: CheckExecState, now: Time) {
    c.state != CheckState.Error && c.expiresAt != ZERO_TIME && c.expiresAt <= now
  }

  /** The store's answer to GetCheckByID. */
  datatype Lookup = LookupFailed | NotFound | Found(check: CheckDef)

  datatype SweepOutcome = UnknownCheck | UnknownAssignment | Skipped | Failed | Committed(write: MonitoringWrite)

  datatype Swept = Swept(rt: RuntimeState, outcome: SweepOutcome)

  /** The write for an evidence loss by p that moved the quorum from q to r. */
  function LossWrite(c: CheckId, p: ProbeId, q: Quorum, r: Quorum, lookup: Lookup): MonitoringWrite
    requires p in r.checks
  {
    MonitoringWrite(
      CheckStateWrite(c, p, r.checks[p]),
      if q.state.lastStable != r.state.lastStable && lookup.Found? then IncidentFor(lookup.check, r, q.state) else None)
  }

  /** One assignment of an evidence sweep, under the lock; a failed lookup or persist restores child and quorum. */
  function SweepAssignment(rt: RuntimeState, c: CheckId, p: ProbeId, now: Time, lookup: Lookup, persistOk: bool): Swept {
    if c !in rt.quorums then Swept(rt, UnknownCheck)
    else if p !in rt.quorums[c].checks then Swept(rt, UnknownAssignment)
    else if !Stale(rt.quorums[c].checks[p], now) then Swept(rt, Skipped)
    else
      var q := rt.quorums[c];
      var r := LostBy(q, p);
      if (q.state.lastStable != r.state.lastStable && lookup.LookupFailed?) || !persistOk then Swept(rt, Failed)
      else Swept(rt.(quorums := rt.quorums[c := r]), Committed(LossWrite(c, p, q, r, lookup)))
  }

  /** One assignment of an evidence sweep: the runtime when the lock was taken and when it was released. */
  datatype LockedStep = LockedStep(check: CheckId, probe: ProbeId, before: RuntimeState, outcome: SweepOutcome, after: RuntimeState)

  /** The assignment is known, has a deadline, and it has passed. */
  predicate DeadlinePassed(rt: RuntimeState, c: CheckId, p: ProbeId, now: Time) {
    && c in rt.quorums && p in rt.quorums[c].checks
    && var child := rt.quorums[c].checks[p];
       child.state != CheckState.Error && child.expiresAt != ZERO_TIME && now >= child.expiresAt
  }

  /** A step expires an assignment, or fails to, exactly if its deadline has passed. */
  predicate IsSweep(s: LockedStep, now: Time, lookup: (CheckId, ProbeId) -> Lookup, persist: (CheckId, ProbeId) -> bool) {
    && Swept(s.after, s.outcome) ==
         SweepAssignment(s.before, s.check, s.probe, now, lookup(s.check, s.probe), persist(s.check, s.probe))
    && (s.outcome.Committed? || s.outcome.Failed? <==> DeadlinePassed(s.before, s.check, s.probe, now))
  }

  ghost predicate AllSweeps(steps: seq<LockedStep>, now: Time, lookup: (CheckId, ProbeId) -> Lookup, persist: (CheckId, ProbeId) -> bool) {
    forall i | 0 <= i < |steps| :: IsSweep(steps[i], now, lookup, persist)
  }

  /** The committed writes of a sweep, in order. */
  function CommittedWrites(steps: seq<LockedStep>): seq<MonitoringWrite> {
    if steps == [] then []
    else
      var last := steps[|steps| - 1];
      CommittedWrites(steps[..|steps| - 1]) + (if last.outcome.Committed? then [last.outcome.write] else [])
  }

  /** The assignments a sweep took the lock for. */
  function Taken(steps: seq<LockedStep>): set<(CheckId, ProbeId)> {
    if steps == [] then {}
    else
      var last := steps[|steps| - 1];
      Taken(steps[..|steps| - 1]) + {(last.check, last.probe)}
  }

  /** The runtime after a sweep: as its last step left it, or as it was. */
  function EndOf(rt: RuntimeState, steps: seq<LockedStep>): RuntimeState {
    if steps == [] then rt else steps[|steps| - 1].after
  }

  /** Nothing happened between the steps: each starts where the one before it ended. */
  ghost predicate Chained(rt: RuntimeState, steps: seq<LockedStep>) {
    steps == [] ||
    var init := steps[..|steps| - 1];
    Chained(rt, init) && steps[|steps| - 1].before == EndOf(rt, init)
  }

  predicate Proceeds(o: SweepOutcome) {
    o.Committed? || o.Skipped?
  }

  /** The sweep went on while it could: every step but a failing last one committed or skipped. */
  predicate StoppedBy(steps: seq<LockedStep>, failure: Option<SweepOutcome>) {
    && (forall i | 0 <= i < |steps| - 1 :: Proceeds(steps[i].outcome))
    && match failure
       case None => steps == [] || Proceeds(steps[|steps| - 1].outcome)
       case Some(o) => steps != [] && steps[|steps| - 1].outcome == o && !Proceeds(o)
  }

  /** Whatever ran before the lock was taken, a sweep step clears no evidence that is fresh now, and none at all unless it commits. */
  lemma SweepSparesFreshEvidence(rt: RuntimeState, c: CheckId, p: ProbeId, now: Time, lookup: Lookup, ok: bool,
                                 d: CheckId, s: ProbeId)
    requires d in rt.quorums && s in rt.quorums[d].checks
    ensures var swept := SweepAssignment(rt, c, p, now, lookup, ok);
            && (!swept.outcome.Committed? ==> swept.rt == rt)
            && swept.rt.quorums.Keys == rt.quorums.Keys
            && swept.rt.quorums[d].checks.Keys == rt.quorums[d].checks.Keys
            && swept.rt.quorums[d].checks[s] ==
                 (if swept.outcome.Committed? && (c, p) == (d, s) then Lost(rt.quorums[d].checks[s]) else rt.quorums[d].checks[s])
            && (swept.rt.quorums[d].checks[s] != rt.quorums[d].checks[s] ==> DeadlinePassed(rt, d, s, now))
  {
  }

  /** No deadline that has passed is left. */
  ghost predicate NothingStale(rt: RuntimeState, now: Time) {
    forall c, p :: !DeadlinePassed(rt, c, p, now)
  }

  /** The assignments whose deadline has passed are among the given ones. */
  ghost predicate StaleWithin(rt: RuntimeState, now: Time, work: set<(CheckId, ProbeId)>) {
    forall c, p | DeadlinePassed(rt, c, p, now) :: (c, p) in work
  }

  /** The deadline of every listed assignment has passed. */
  ghost predicate OnlyStale(rt: RuntimeState, now: Time, work: set<(CheckId, ProbeId)>) {
    forall c, p | (c, p) in work :: DeadlinePassed(rt, c, p, now)
  }

  /** A sweep step that was not stopped by an error leaves its own assignment fresh or cleared. */
  lemma SweepShrinksWork(rt: RuntimeState, now: Time, work: set<(CheckId, ProbeId)>, c: CheckId, p: ProbeId, lookup: Lookup, ok: bool)
    requires StaleWithin(rt, now, work)
    ensures var swept := SweepAssignment(rt, c, p, now, lookup, ok);
            swept.outcome.Committed? || swept.outcome.Skipped? ==> StaleWithin(swept.rt, now, work - {(c, p)})
  {
    hide LostBy, LossWrite;
    var swept := SweepAssignment(rt, c, p, now, lookup, ok);
    if swept.outcome.Committed? || swept.outcome.Skipped? {
      forall d, s | DeadlinePassed(swept.rt, d, s, now) ensures (d, s) in work - {(c, p)} {
        LossKeepsKeys(rt.quorums[c], p);
        SweepSparesFreshEvidence(rt, c, p, now, lookup, ok, d, s);
      }
    }
  }

  lemma LossKeepsKeys(q: Quorum, p: ProbeId)
    requires p in q.checks
    ensures LostBy(q, p).checks.Keys == q.checks.Keys
  {
  }

  // ---- Probe sweeps ---------------------------------------------------------------------------

  datatype ProbeTrigger = ReceiveHeartbeat | HeartbeatExpired | MarkError

  /** The probe transition table: every state permits every trigger, and only the trigger picks the target. */
  function FireProbe(s: ProbeState, t: ProbeTrigger): ProbeState {
    match t
    case ReceiveHeartbeat => Online
    case HeartbeatExpired => Offline
    case MarkError => ProbeState.Error
  }

  function Beaten(s: ProbeRuntimeState, at: Time): ProbeRuntimeState {
    ProbeRuntimeState(FireProbe(s.state, ReceiveHeartbeat), Some(at))
  }

  function Expired(s: ProbeRuntimeState): ProbeRuntimeState {
    s.(state := FireProbe(s.state, HeartbeatExpired))
  }

  predicate HeartbeatStale(s: ProbeRuntimeState, now: Time, offlineAfter: int) {
    s.state != Offline && s.lastHeartbeatAt.Some? && s.lastHeartbeatAt.value + offlineAfter <= now
  }

  /** The probe is known, not offline, and its last heartbeat is at least that long ago. */
  predicate Silent(rt: RuntimeState, p: ProbeId, now: Time, offlineAfter: int) {
    && p in rt.probes && rt.probes[p].state != Offline
    && rt.probes[p].lastHeartbeatAt.Some? && now - rt.probes[p].lastHeartbeatAt.value >= offlineAfter
  }

  /** An evidence loss by p, if p is assigned. */
  function Degraded(q: Quorum, p: ProbeId): Quorum {
    if p in q.checks then LostBy(q, p) else q
  }

  function DegradeAll(quorums: map<CheckId, Quorum>, p: ProbeId): map<CheckId, Quorum> {
    map c | c in quorums :: Degraded(quorums[c], p)
  }

  /** The same with some quorums still to be visited. */
  function DegradeBut(quorums: map<CheckId, Quorum>, rest: set<CheckId>, p: ProbeId): map<CheckId, Quorum> {
    map c | c in quorums :: if c in rest then quorums[c] else Degraded(quorums[c], p)
  }

  lemma DegradeNext(quorums: map<CheckId, Quorum>, rest: set<CheckId>, c: CheckId, p: ProbeId)
    requires c in quorums && c in rest
    ensures DegradeBut(quorums, rest, p)[c := Degraded(DegradeBut(quorums, rest, p)[c], p)] == DegradeBut(quorums, rest - {c}, p)
  {
    hide Degraded;
  }

  lemma DegradeEnds(quorums: map<CheckId, Quorum>, p: ProbeId)
    ensures DegradeBut(quorums, quorums.Keys, p) == quorums
    ensures DegradeBut(quorums, {}, p) == DegradeAll(quorums, p)
  {
    hide Degraded;
  }

  /** One probe of a probe sweep: nothing is persisted. */
  function SweepProbe(rt: RuntimeState, p: ProbeId, now: Time, offlineAfter: int): RuntimeState {
    if p !in rt.probes || !HeartbeatStale(rt.probes[p], now, offlineAfter) then rt
    else RuntimeState(rt.probes[p := Expired(rt.probes[p])], DegradeAll(rt.quorums, p))
  }

  function SweepProbes(rt: RuntimeState, ps: seq<ProbeId>, now: Time, offlineAfter: int): RuntimeState {
    if ps == [] then rt
    else SweepProbe(SweepProbes(rt, ps[..|ps| - 1], now, offlineAfter), ps[|ps| - 1], now, offlineAfter)
  }

  /** A stable aggregate state that has not been promoted yet. */
  predicate Unpromoted(s: CheckQuorumState) {
    Stable(s.state) && s.lastStable != Some(s.state)
  }

  /** How evidence losses alone can move a quorum: never into up or down, and only promoting what was waiting. */
  predicate OnlyPromotes(from: CheckQuorumState, to: CheckQuorumState) {
    && (Stable(to.state) ==> to.state == from.state)
    && (to.lastStable != from.lastStable ==> Unpromoted(from) && to.lastStable == Some(from.state))
    && (to.incidentOpen != from.incidentOpen ==> to.lastStable != from.lastStable)
    && (to.lastStable == from.lastStable && Unpromoted(to) ==> Unpromoted(from))
  }

  lemma DegradedOnlyPromotes(q: Quorum, p: ProbeId)
    requires QuorumOk(q)
    ensures QuorumOk(Degraded(q, p)) && OnlyPromotes(q.state, Degraded(q, p).state)
  {
    if p in q.checks {
      LossKeepsOk(q, p);
      LossIsMonotone(q, p);
    }
  }

  /**
    A whole probe sweep, over any number of probes, moves no quorum into up or down, and changes the
    stable state or the incident flag only of quorums that were waiting for promotion when it began.
   */
  lemma {:induction false} ProbeSweepOnlyPromotes(rt: RuntimeState, ps: seq<ProbeId>, now: Time, offlineAfter: int, c: CheckId)
    requires c in rt.quorums && QuorumOk(rt.quorums[c])
    ensures var r := SweepProbes(rt, ps, now, offlineAfter);
            && c in r.quorums && QuorumOk(r.quorums[c])
            && OnlyPromotes(rt.quorums[c].state, r.quorums[c].state)
  {
    if ps != [] {
      ProbeSweepOnlyPromotes(rt, ps[..|ps| - 1], now, offlineAfter, c);
      var mid := SweepProbes(rt, ps[..|ps| - 1], now, offlineAfter);
      DegradedOnlyPromotes(mid.quorums[c], ps[|ps| - 1]);
    }
  }

  // ---- A probe sweep, lock by lock ----------------------------------------------------------------------

  /** One expired probe of a sweep: the runtime when the lock was taken and when it was released. */
  datatype ExpiryStep = ExpiryStep(probe: ProbeId, before: RuntimeState, after: RuntimeState)

  predicate IsExpiry(s: ExpiryStep, now: Time, offlineAfter: int) {
    Silent(s.before, s.probe, now, offlineAfter) && s.after == SweepProbe(s.before, s.probe, now, offlineAfter)
  }

  ghost predicate AllExpiries(steps: seq<ExpiryStep>, now: Time, offlineAfter: int) {
    forall i | 0 <= i < |steps| :: IsExpiry(steps[i], now, offlineAfter)
  }

  function ProbesOf(steps: seq<ExpiryStep>): seq<ProbeId> {
    if steps == [] then [] else ProbesOf(steps[..|steps| - 1]) + [steps[|steps| - 1].probe]
  }

  /** No probe expires twice, and all are among the given ones. */
  ghost predicate OnceEach(steps: seq<ExpiryStep>, among: set<ProbeId>) {
    && (forall i | 0 <= i < |steps| :: steps[i].probe in among)
    && (forall i, j | 0 <= i < j < |steps| :: steps[i].probe != steps[j].probe)
  }

  /** Whatever happened before the lock was taken, the step itself promotes only what was waiting. */
  lemma ExpiryStepOnlyPromotes(s: ExpiryStep, now: Time, offlineAfter: int, c: CheckId)
    requires IsExpiry(s, now, offlineAfter) && c in s.before.quorums && QuorumOk(s.before.quorums[c])
    ensures c in s.after.quorums && QuorumOk(s.after.quorums[c])
    ensures OnlyPromotes(s.before.quorums[c].state, s.after.quorums[c].state)
  {
    hide QuorumOk, Degraded;
    DegradedOnlyPromotes(s.before.quorums[c], s.probe);
  }
}
