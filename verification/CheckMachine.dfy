/** The per-(check, probe) streak machine (internal/monitoring/check_machine.go). */
module CheckMachines {
  import opened MonitoringTypes

  const EVIDENCE_THRESHOLD: nat := 2

  datatype CheckTrigger = ObserveUp | ObserveDown | LoseEvidence | MarkError

  /** The transition table: every state permits every trigger, and only the trigger picks the target. */
  function Fire(s: CheckState, t: CheckTrigger): CheckState {
    match t
    case ObserveUp => CheckState.Up
    case ObserveDown => CheckState.Down
    case LoseEvidence => Missing
    case MarkError => CheckState.Error
  }

  /** The child state after a fresh up or down result. */
  function Observed(c: CheckExecState, up: bool, at: Time, expiresAt: Option<Time>): CheckExecState {
    var outcome := if up then CheckState.Up else CheckState.Down;
    var streak := if c.lastOutcome == Some(outcome) then c.streakLen + 1 else 1;
    CheckExecState(at, Some(outcome), streak, if expiresAt.Some? then expiresAt.value else ZERO_TIME,
                   if streak < EVIDENCE_THRESHOLD then Missing else outcome)
  }

  /** The child state after its evidence stopped being fresh. */
  function Lost(c: CheckExecState): CheckExecState {
    CheckExecState(c.lastResultAt, None, 0, ZERO_TIME, Missing)
  }

  /** The child state after an unusable result. */
  function Errored(c: CheckExecState): CheckExecState {
    var streak := if c.lastOutcome == Some(CheckState.Error) then c.streakLen + 1 else 1;
    c.(lastOutcome := Some(CheckState.Error), streakLen := streak, state := CheckState.Error)
  }

  /** What every machine keeps: the state says exactly what outcome and streak say. */
  predicate Coherent(c: CheckExecState) {
    match c.lastOutcome
    case None => c.streakLen == 0 && c.state == Missing
    case Some(o) =>
      && c.streakLen > 0
      && o != Missing
      && c.state == if o != CheckState.Error && c.streakLen < EVIDENCE_THRESHOLD then Missing else o
  }

  // ---- Event histories ------------------------------------------------------------------

  datatype Event = SawUp | SawDown | SawError | LostEvidence

  function OutcomeOf(e: Event): Option<CheckState> {
    match e
    case SawUp => Some(CheckState.Up)
    case SawDown => Some(CheckState.Down)
    case SawError => Some(CheckState.Error)
    case LostEvidence => None
  }

  /** The last k events are the same observation, so no evidence was lost between them. */
  predicate ConstantSuffix(h: seq<Event>, k: nat) {
    && k <= |h|
    && forall i | |h| - k <= i < |h| :: h[i] == h[|h| - 1] && h[i] != LostEvidence
  }

  /** The streak counter is the length of the longest constant suffix of the history. */
  ghost predicate Tracks(c: CheckExecState, h: seq<Event>) {
    && Coherent(c)
    && ConstantSuffix(h, c.streakLen)
    && !ConstantSuffix(h, c.streakLen + 1)
    && c.lastOutcome == if |h| == 0 then None else OutcomeOf(h[|h| - 1])
  }

  function After(c: CheckExecState, e: Event, at: Time, expiresAt: Option<Time>): CheckExecState {
    match e
    case SawUp => Observed(c, true, at, expiresAt)
    case SawDown => Observed(c, false, at, expiresAt)
    case SawError => Errored(c)
    case LostEvidence => Lost(c)
  }

  lemma StreakTracksHistory(c: CheckExecState, h: seq<Event>, e: Event, at: Time, expiresAt: Option<Time>)
    requires Tracks(c, h)
    ensures Tracks(After(c, e, at, expiresAt), h + [e])
  {
    var h', c' := h + [e], After(c, e, at, expiresAt);
    var n := c'.streakLen;
    if n > 1 {
      assert h[|h| - 1] == e;
    }
    forall i | |h'| - n <= i < |h'| ensures h'[i] == h'[|h'| - 1] && h'[i] != LostEvidence {
      if i < |h| {
        assert h'[i] == h[i];
      }
    }
    if ConstantSuffix(h', n + 1) {
      assert e != LostEvidence by { assert h'[|h'| - 1] == e; }
      assert h'[|h'| - 2] == h[|h| - 1] == e;
      forall i | |h| - n <= i < |h| ensures h[i] == h[|h| - 1] && h[i] != LostEvidence {
        assert h'[i] == h[i];
      }
      assert ConstantSuffix(h, n);
      assert false;
    }
  }

  /** A streak of at least two is two consecutive equal observations with no loss between. */
  predicate EndsInTwo(h: seq<Event>, e: Event) {
    |h| >= 2 && h[|h| - 1] == e && h[|h| - 2] == e
  }

  lemma StreakOfTwo(c: CheckExecState, h: seq<Event>, e: Event)
    requires Tracks(c, h) && e != LostEvidence
    ensures c.lastOutcome == OutcomeOf(e) && c.streakLen >= EVIDENCE_THRESHOLD <==> EndsInTwo(h, e)
  {
    if EndsInTwo(h, e) {
      assert ConstantSuffix(h, 2);
      if c.streakLen < 2 {
        assert ConstantSuffix(h, c.streakLen + 1);
      }
    }
  }

  // ---- The machine ----------------------------------------------------------------------

  class CheckMachine {
    var state: CheckExecState

    constructor ()
      ensures state == NEW_CHECK
    {
      state := NEW_CHECK;
    }

    method ObserveUp(at: Time, expiresAt: Option<Time>)
      modifies this
      ensures state == Observed(old(state), true, at, expiresAt)
    {
      Observe(CheckTrigger.ObserveUp, CheckState.Up, at, expiresAt);
    }

    method ObserveDown(at: Time, expiresAt: Option<Time>)
      modifies this
      ensures state == Observed(old(state), false, at, expiresAt)
    {
      Observe(CheckTrigger.ObserveDown, CheckState.Down, at, expiresAt);
    }

    method LoseEvidence()
      modifies this
      ensures state == Lost(old(state))
    {
      state := state.(state := Fire(state.state, CheckTrigger.LoseEvidence));
      state := state.(expiresAt := ZERO_TIME);
      state := state.(lastOutcome := None);
      state := state.(streakLen := 0);
    }

    method MarkError()
      modifies this
      ensures state == Errored(old(state))
      ensures state.state == CheckState.Error && state.lastOutcome == Some(CheckState.Error)
      ensures state.lastResultAt == old(state).lastResultAt && state.expiresAt == old(state).expiresAt
    {
      state := state.(state := Fire(state.state, CheckTrigger.MarkError));
      BumpOutcome(CheckState.Error);
    }

    /** The table's target state is overwritten by what the streak allows. */
    method Observe(trigger: CheckTrigger, outcome: CheckState, at: Time, expiresAt: Option<Time>)
      requires trigger == (if outcome == CheckState.Up then CheckTrigger.ObserveUp else CheckTrigger.ObserveDown)
      requires outcome == CheckState.Up || outcome == CheckState.Down
      modifies this
      ensures state == Observed(old(state), outcome == CheckState.Up, at, expiresAt)
    {
      state := state.(state := Fire(state.state, trigger));
      state := state.(lastResultAt := at);
      state := state.(expiresAt := if expiresAt.Some? then expiresAt.value else ZERO_TIME);
      BumpOutcome(outcome);
      state := state.(state := if state.streakLen < EVIDENCE_THRESHOLD then Missing else outcome);
    }

    method BumpOutcome(outcome: CheckState)
      modifies this
      ensures state == old(state).(lastOutcome := Some(outcome),
                                   streakLen := if old(state.lastOutcome) == Some(outcome) then old(state.streakLen) + 1 else 1)
    {
      if state.lastOutcome == Some(outcome) {
        state := state.(streakLen := state.streakLen + 1);
      } else {
        state := state.(streakLen := 1);
      }
      state := state.(lastOutcome := Some(outcome));
    }
  }
}
