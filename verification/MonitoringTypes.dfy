/** State datatypes of the monitoring runtime (internal/monitoring/types.go). */
module MonitoringTypes {

  datatype Option<+T> = None | Some(value: T)

  /** Identifiers; the empty identifier is a constructor of its own. */
  datatype CheckId = NoCheck | CheckId(text: string)
  datatype ProbeId = NoProbe | ProbeId(text: string)

  /** Instants, in nanoseconds. ZERO_TIME is the zero time value, for which IsZero holds. */
  type Time = int
  const ZERO_TIME: Time := 0

  datatype ProbeState = Online | Offline | Error

  datatype CheckState = Up | Down | Missing | Error

  datatype QuorumState = Pending | Up | Down | Error

  /** The current runtime state of a probe. */
  datatype ProbeRuntimeState = ProbeRuntimeState(state: ProbeState, lastHeartbeatAt: Option<Time>)

  /** The current runtime facts of one (check, probe) pair; an empty outcome is None. */
  datatype CheckExecState = CheckExecState(
    lastResultAt: Time,
    lastOutcome: Option<CheckState>,
    streakLen: nat,
    expiresAt: Time,
    state: CheckState)

  /** The aggregate runtime state of one check; an empty last stable state is None. */
  datatype CheckQuorumState = CheckQuorumState(
    state: QuorumState,
    lastStable: Option<QuorumState>,
    incidentOpen: bool)

  /** One check's quorum: its aggregate state and the states of its assigned probes. */
  datatype Quorum = Quorum(state: CheckQuorumState, checks: map<ProbeId, CheckExecState>)

  const NEW_PROBE := ProbeRuntimeState(Offline, None)
  const NEW_CHECK := CheckExecState(ZERO_TIME, None, 0, ZERO_TIME, Missing)
  const NEW_QUORUM_STATE := CheckQuorumState(Pending, None, false)
  const NEW_QUORUM := Quorum(NEW_QUORUM_STATE, map[])
}
