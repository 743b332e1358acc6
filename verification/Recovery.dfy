/** Rebuilding the runtime from the store (internal/monitoring/recovery.go). */
module Recovery {
  import opened MonitoringTypes
  import opened CheckMachines
  import opened QuorumMachines
  import opened StoreTables
  import opened Results

  /** A reloaded child; a probe never seen alive does not contribute its old votes. */
  function RecoveredChild(row: CheckExecState, seen: bool): CheckExecState {
    if seen then row else Lost(row)
  }

  /** The aggregate state a recovered quorum starts its final recompute from. */
  function RecoveryState(incidentOpen: bool): CheckQuorumState {
    if incidentOpen then CheckQuorumState(QuorumState.Down, Some(QuorumState.Down), true) else NEW_QUORUM_STATE
  }

  function RecoveredQuorum(checks: Children, incidentOpen: bool): Quorum {
    Recomputed(Quorum(RecoveryState(incidentOpen), checks))
  }

  function RecoveredChildren(db: Db, c: CheckId): Children {
    map p | p in db.probes && p != NoProbe && (c, p) in db.rows :: RecoveredChild(db.rows[(c, p)], db.probes[p].Some?)
  }

  function RecoveredProbe(lastSeenAt: Option<Time>): ProbeRuntimeState {
    if lastSeenAt.None? then NEW_PROBE else ProbeRuntimeState(Online, lastSeenAt)
  }

  /** The runtime that recovery builds, whatever the order of rows and of map iteration. */
  function Recovered(db: Db): RuntimeState {
    RuntimeState(
      map p | p in db.probes && p != NoProbe :: RecoveredProbe(db.probes[p]),
      map c | c in db.checks && db.checks[c] && c != NoCheck :: RecoveredQuorum(RecoveredChildren(db, c), HasOpen(db, c)))
  }

  /** One durable row loaded into memory; rows of unknown checks or probes are ignored. */
  function RowLoaded(rt: RuntimeState, c: CheckId, p: ProbeId, child: CheckExecState): RuntimeState {
    if c !in rt.quorums || p !in rt.probes then rt
    else
      var joined := Joined(rt.quorums[c], p);
      rt.(quorums := rt.quorums[c := joined.(checks := joined.checks[p := child])])
  }

  /** The final recompute is silent: whatever votes were persisted, it opens, resolves and promotes nothing. */
  lemma RecoveryIsSilent(checks: Children, incidentOpen: bool)
    ensures var s := RecoveredQuorum(checks, incidentOpen).state;
            && s.incidentOpen == incidentOpen
            && s.lastStable == (if incidentOpen then Some(QuorumState.Down) else None)
  {
  }

  lemma RecoveryKeepsOk(checks: Children, incidentOpen: bool)
    requires forall p | p in checks :: Coherent(checks[p])
    ensures QuorumOk(RecoveredQuorum(checks, incidentOpen))
  {
    RecomputeSettles(Quorum(RecoveryState(incidentOpen), checks));
  }

  /**
    Persist and recover: no row of a coherent child is rejected, and it reloads to a child with the same
    outcome, streak and state. The last-result time survives exactly when it was not the zero time (or
    the clock itself was). The vote survives, under either incident flag, exactly unless the row got its time only
    from the clock and the child has an up outcome that passes the gate.
   */
  lemma RowRoundTrip(c: CheckId, p: ProbeId, child: CheckExecState, now: Time, incidentOpen: bool)
    requires c != NoCheck && p != NoProbe && Coherent(child)
    ensures var row := Normalized(CheckStateWrite(c, p, child), now);
            && row.Some?
            && var back := RecoveredChild(row.value, true);
               && Coherent(back)
               && back.lastOutcome == child.lastOutcome && back.streakLen == child.streakLen && back.state == child.state
               && (back.lastResultAt == child.lastResultAt <==> child.lastResultAt != ZERO_TIME || now == ZERO_TIME)
               && (Contribution(back, incidentOpen) == Contribution(child, incidentOpen) <==>
                     !(child.lastResultAt == ZERO_TIME && now != ZERO_TIME && child.lastOutcome == Some(CheckState.Up)
                       && (incidentOpen ==> child.streakLen >= EVIDENCE_THRESHOLD)))
  {
  }

  /** A row written after an evidence loss reloads as a non-vote, which a later loss can only clear again. */
  lemma LostRowRoundTrip(c: CheckId, p: ProbeId, child: CheckExecState, now: Time, incidentOpen: bool)
    requires c != NoCheck && p != NoProbe && child.lastResultAt != ZERO_TIME
    ensures var row := Normalized(CheckStateWrite(c, p, Lost(child)), now);
            && row.Some?
            && Contribution(row.value, incidentOpen) == Missing
            && row.value.expiresAt == child.lastResultAt
            && Lost(row.value) == Lost(child)
  {
  }
}
