/**
  The runtime object (internal/monitoring/runtime.go) with the operations of result.go, heartbeat.go,
  sweepers.go and recovery.go that run under its lock, proved against the functions on RuntimeState.
 */
module Runtimes {
  import opened MonitoringTypes
  import opened CheckMachines
  import opened QuorumMachines
  import opened StoreTables
  import opened Results
  import opened Sweepers
  import opened Recovery

  /** One probe's liveness (internal/monitoring/probe_machine.go). */
  class ProbeMachine {
    var state: ProbeRuntimeState

    constructor ()
      ensures state == NEW_PROBE
    {
      state := NEW_PROBE;
    }

    method ReceiveHeartbeat(at: Time)
      modifies this
      ensures state == Beaten(old(state), at)
    {
      state := state.(state := FireProbe(state.state, ProbeTrigger.ReceiveHeartbeat));
      state := state.(lastHeartbeatAt := Some(at));
    }

    method ExpireHeartbeat()
      modifies this
      ensures state == Expired(old(state))
    {
      state := state.(state := FireProbe(state.state, HeartbeatExpired));
    }
  }

  class Runtime {
    var probes: map<ProbeId, ProbeMachine>
    var quorums: map<CheckId, QuorumMachine>

    /** Distinct keys own distinct machines, down to the children of distinct quorums. */
    ghost predicate Valid()
      reads this, quorums.Values
    {
      && (forall p, r | p in probes && r in probes && p != r :: probes[p] != probes[r])
      && (forall c | c in quorums :: quorums[c].Valid())
      && (forall c, d | c in quorums && d in quorums && c != d ::
            quorums[c] != quorums[d] && quorums[c].checks.Values !! quorums[d].checks.Values)
    }

    ghost function Children(): set<CheckMachine>
      reads this, quorums.Values
    {
      set c, p | c in quorums && p in quorums[c].checks :: quorums[c].checks[p]
    }

    ghost function QuorumValues(): map<CheckId, Quorum>
      reads this, quorums.Values, Children()
    {
      map c | c in quorums :: quorums[c].Value()
    }

    ghost function ProbeValues(): map<ProbeId, ProbeRuntimeState>
      reads this, probes.Values
    {
      map p | p in probes :: probes[p].state
    }

    ghost function Abs(): RuntimeState
      reads this, probes.Values, quorums.Values, Children()
    {
      RuntimeState(ProbeValues(), QuorumValues())
    }

    constructor ()
      ensures Valid() && probes == map[] && quorums == map[] && Children() == {} && Abs() == RuntimeState(map[], map[])
    {
      probes := map[];
      quorums := map[];
    }

    /** Only the quorum of c and its children may have changed, and the children it gained are fresh. */
    twostate predicate OnlyTouched(c: CheckId)
      reads this, probes.Values, quorums.Values, Children()
    {
      && quorums == old(quorums) && probes == old(probes) && c in quorums && quorums[c].Valid()
      && (forall m | m in quorums[c].checks.Values && m !in old(quorums[c].checks.Values) :: fresh(m))
      && (forall d | d in quorums && d != c :: unchanged(quorums[d]) && unchanged(quorums[d].checks.Values))
      && (forall p | p in probes :: unchanged(probes[p]))
    }

    twostate lemma ChildrenGrow(c: CheckId)
      requires old(Valid()) && OnlyTouched(c)
      ensures fresh(Children() - old(Children()))
    {
      forall m | m in Children() && !fresh(m) ensures m in old(Children()) {
        var d, p :| d in quorums && p in quorums[d].checks && m == quorums[d].checks[p];
        if d == c {
          assert m in quorums[c].checks.Values && m in old(quorums[c].checks.Values);
          var r :| r in old(quorums[c].checks) && old(quorums[c].checks)[r] == m;
          assert old(quorums[c].checks[r]) in old(Children());
        } else {
          assert old(quorums[d].checks[p]) in old(Children());
        }
      }
    }

    twostate lemma ChildrenShrink(c: CheckId)
      requires old(Valid()) && OnlyTouched(c) && quorums[c].checks.Values <= old(quorums[c].checks.Values)
      ensures Children() <= old(Children())
    {
      forall m | m in Children() ensures m in old(Children()) {
        var d, p :| d in quorums && p in quorums[d].checks && m == quorums[d].checks[p];
        if d == c {
          assert m in old(quorums[c].checks.Values);
          var r :| r in old(quorums[c].checks) && old(quorums[c].checks)[r] == m;
          assert old(quorums[c].checks[r]) in old(Children());
        } else {
          assert old(quorums[d].checks[p]) in old(Children());
        }
      }
    }

    twostate lemma StaysValid(c: CheckId)
      requires old(Valid()) && OnlyTouched(c)
      ensures Valid()
    {
    }

    twostate lemma ValuesKept(c: CheckId)
      requires old(Valid()) && OnlyTouched(c)
      ensures Abs() == old(Abs()).(quorums := old(QuorumValues())[c := quorums[c].Value()])
    {
      hide Valid;
      assert forall d | d in quorums && d != c :: quorums[d].Value() == old(quorums[d].Value());
      assert QuorumValues() == old(QuorumValues())[c := quorums[c].Value()];
    }

    /** A change to one quorum and its children leaves the others as they were. */
    twostate lemma OthersKept(c: CheckId)
      requires old(Valid()) && OnlyTouched(c)
      ensures Valid() && Abs() == old(Abs()).(quorums := old(QuorumValues())[c := quorums[c].Value()])
      ensures fresh(Children() - old(Children()))
    {
      hide Valid, OnlyTouched, QuorumValues, Abs;
      StaysValid(c);
      ValuesKept(c);
      ChildrenGrow(c);
    }

    lemma KeysAreKept()
      ensures quorums.Keys == Abs().quorums.Keys && probes.Keys == Abs().probes.Keys
    {
    }

    /** The quorum machine of a check, created on demand. */
    method EnsureQuorum(c: CheckId) returns (quorum: QuorumMachine)
      requires Valid()
      modifies this`quorums
      ensures Valid() && c in quorums && quorums[c] == quorum
      ensures c in old(quorums) ==> quorums == old(quorums)
      ensures c !in old(quorums) ==> quorums == old(quorums)[c := quorum] && fresh(quorum) && quorum.checks == map[]
      ensures Abs() == Ensured(old(Abs()), c) && Children() == old(Children()) && fresh(quorums.Values - old(quorums.Values))
      ensures quorum.Value() == QuorumOf(old(Abs()), c)
    {
      if c in quorums {
        quorum := quorums[c];
      } else {
        quorum := new QuorumMachine();
        quorums := quorums[c := quorum];
        AddedQuorumIsValid(c);
        QuorumAdded(c);
      }
    }

    /** A fresh empty quorum was added for c, and nothing else changed. */
    twostate predicate OnlyAdded(c: CheckId)
      reads this, probes.Values, quorums.Values, Children()
    {
      && c in quorums && c !in old(quorums) && probes == old(probes)
      && quorums == old(quorums)[c := quorums[c]] && fresh(quorums[c])
      && quorums[c].checks == map[] && quorums[c].state == NEW_QUORUM_STATE
      && (forall d | d in old(quorums) :: unchanged(quorums[d]) && unchanged(quorums[d].checks.Values))
      && (forall p | p in probes :: unchanged(probes[p]))
    }

    twostate lemma AddedQuorumIsValid(c: CheckId)
      requires old(Valid()) && OnlyAdded(c)
      ensures Valid() && Children() == old(Children())
    {
    }

    twostate lemma QuorumAdded(c: CheckId)
      requires old(Valid()) && OnlyAdded(c)
      ensures Abs() == Ensured(old(Abs()), c)
    {
      hide Valid;
      assert quorums[c].Value() == NEW_QUORUM;
      assert forall d | d in old(quorums) :: quorums[d] == old(quorums[d]) && quorums[d].Value() == old(quorums[d].Value());
      assert QuorumValues() == old(QuorumValues())[c := NEW_QUORUM];
    }

    /** One result for a check that has a quorum. */
    method ReportTo(item: ObservedResult, expiresAt: Time) returns (write: MonitoringWrite, previousCheck: CheckExecState)
      requires Valid() && item.check.id in quorums
      modifies quorums.Values, Children()
      ensures Valid() && probes == old(probes) && quorums == old(quorums) && fresh(Children() - old(Children()))
      ensures var c, p := item.check.id, item.probe;
              var before := old(Abs()).quorums[c];
              var after := Reported(before, p, item.up, item.at, expiresAt);
              && Abs() == old(Abs()).(quorums := old(Abs()).quorums[c := after])
              && write == MonitoringWrite(CheckStateWrite(c, p, after.checks[p]), IncidentFor(item.check, after, before.state))
              && previousCheck == Joined(before, p).checks[p]
    {
      hide Joined, ObservedBy, IncidentFor, Reported;
      var quorum := quorums[item.check.id];
      assert old(quorum.Value()) == old(Abs()).quorums[item.check.id];
      var previous := quorum.state;
      previousCheck := Report(quorum, item.probe, item.up, item.at, expiresAt);
      var incident := IncidentOf(item.check, quorum, previous);
      write := MonitoringWrite(CheckStateWrite(item.check.id, item.probe, quorum.checks[item.probe].state), incident);
      OthersKept(item.check.id);
    }

    /** One accepted result: the write to persist and what it takes to undo it, or None for an unknown probe. */
    method ApplyObservedResult(item: ObservedResult) returns (r: Option<(MonitoringWrite, Rollback)>)
      requires Valid()
      modifies this`quorums, quorums.Values, Children()
      ensures Valid() && probes == old(probes)
      ensures fresh(quorums.Values - old(quorums.Values)) && fresh(Children() - old(Children()))
      ensures r.Some? <==> item.probe in probes
      ensures r.None? ==> Abs() == old(Abs())
      ensures r.Some? ==> var a := ApplyItem(old(Abs()), item); Abs() == a.rt && r.value == (a.write, a.rollback)
    {
      hide Joined, ObservedBy, IncidentFor, Reported, Ensured, QuorumValues, ProbeValues, Valid;
      if item.probe !in probes {
        return None;
      }
      var c, p := item.check.id, item.probe;
      ghost var rt := Abs();
      var existed := c in quorums;
      KeysAreKept();
      var quorum := EnsureQuorum(c);
      EnsureThenReport(rt, item);
      var previous := quorum.state;
      var joined := p !in quorum.checks;
      var write, previousCheck := ReportTo(item, EvidenceExpiresAt(item.check, item.at));
      r := Some((write, Rollback(c, p, !existed, joined, previousCheck, previous)));
      EnsureThenReport(rt, item);
    }

    /** Drops one check's runtime state. */
    method RemoveCheck(c: CheckId)
      requires Valid()
      modifies this`quorums
      ensures Valid() && probes == old(probes) && Abs() == old(Abs()).(quorums := old(Abs()).quorums - {c})
      ensures quorums.Values <= old(quorums.Values) && Children() <= old(Children())
    {
      hide Tally;
      quorums := quorums - {c};
      assert QuorumValues() == old(QuorumValues()) - {c};
    }

    /** Takes one item of a failed batch back. */
    method UndoOne(r: Rollback)
      requires Valid()
      modifies this`quorums, quorums.Values, Children()
      ensures Valid() && probes == old(probes) && Abs() == Undo(old(Abs()), r)
      ensures quorums.Values <= old(quorums.Values) && Children() <= old(Children())
    {
      if r.createdQuorum {
        RemoveCheck(r.check);
      } else if r.check in quorums {
        var quorum := quorums[r.check];
        quorum.Revert(r.probe, r.createdAssignment, r.previousCheck, r.previousQuorum);
        OthersKept(r.check);
        ChildrenShrink(r.check);
      }
    }

    /** Takes the items of a failed batch back, in reverse order. */
    method RollbackObservedResults(rollbacks: seq<Rollback>)
      requires Valid()
      modifies this`quorums, quorums.Values, Children()
      ensures Valid() && probes == old(probes) && Abs() == UndoAll(old(Abs()), rollbacks)
    {
      hide QuorumValues, ProbeValues, Valid, Undo;
      var i := |rollbacks|;
      assert rollbacks[..i] == rollbacks;
      while i > 0
        invariant 0 <= i <= |rollbacks|
        invariant Valid() && probes == old(probes)
        invariant quorums.Values <= old(quorums.Values) && Children() <= old(Children())
        invariant UndoAll(Abs(), rollbacks[..i]) == UndoAll(old(Abs()), rollbacks)
      {
        assert rollbacks[..i][..i - 1] == rollbacks[..i - 1];
        UndoOne(rollbacks[i - 1]);
        i := i - 1;
      }
    }

    /**
      Applies the items in order and keeps what is needed to take them back; a result of an unknown probe takes
      back the items before it, so that the runtime is exactly what it was.
     */
    method ApplyItemsInOrder(items: seq<ObservedResult>)
      returns (ok: bool, writes: seq<MonitoringWrite>, rollbacks: seq<Rollback>)
      requires Valid()
      modifies this`quorums, quorums.Values, Children()
      ensures Valid() && probes == old(probes)
      ensures ok ==> fresh(quorums.Values - old(quorums.Values)) && fresh(Children() - old(Children()))
      ensures ok <==> forall i | 0 <= i < |items| :: items[i].probe in probes
      ensures ok ==> Batch(Abs(), writes, rollbacks) == ApplyItems(old(Abs()), items)
      ensures !ok ==> Abs() == old(Abs())
    {
      hide QuorumValues, ProbeValues, Valid, Undo, ApplyItem;
      ghost var rt := Abs();
      writes, rollbacks := [], [];
      var i := 0;
      while i < |items|
        invariant 0 <= i <= |items|
        invariant Valid() && probes == old(probes)
        invariant fresh(quorums.Values - old(quorums.Values)) && fresh(Children() - old(Children()))
        invariant Batch(Abs(), writes, rollbacks) == ApplyItems(rt, items[..i])
        invariant forall k | 0 <= k < i :: items[k].probe in probes
      {
        UndoAllReverts(rt, items[..i]);
        var r := ApplyObservedResult(items[i]);
        if r.None? {
          RollbackObservedResults(rollbacks);
          return false, [], [];
        }
        assert items[..i + 1][..i] == items[..i];
        writes, rollbacks := writes + [r.value.0], rollbacks + [r.value.1];
        i := i + 1;
      }
      assert items[..i] == items;
      ok := true;
    }

    // ---- Probes ---------------------------------------------------------------------------------

    method AddProbe(p: ProbeId)
      requires Valid()
      modifies this`probes
      ensures Valid() && quorums == old(quorums) && fresh(probes.Values - old(probes.Values)) && Children() == old(Children())
      ensures Abs() == if p == NoProbe || p in old(probes) then old(Abs())
                       else old(Abs()).(probes := old(Abs()).probes[p := NEW_PROBE])
    {
      if p == NoProbe || p in probes {
        return;
      }
      var probe := new ProbeMachine();
      probes := probes[p := probe];
      assert ProbeValues() == old(ProbeValues())[p := NEW_PROBE];
      assert forall c | c in quorums :: quorums[c].Value() == old(quorums[c].Value());
      assert QuorumValues() == old(QuorumValues());
    }

    /** A heartbeat and its durable timestamp are one unit: a failed persist restores the probe. */
    method ApplyHeartbeat(p: ProbeId, at: Time, persistOk: bool) returns (ok: bool)
      requires Valid()
      modifies probes.Values
      ensures Valid() && probes == old(probes) && quorums == old(quorums) && Children() == old(Children())
      ensures ok == (p in probes && persistOk)
      ensures Abs() == if ok then old(Abs()).(probes := old(Abs()).probes[p := Beaten(old(Abs()).probes[p], at)]) else old(Abs())
    {
      if p !in probes {
        return false;
      }
      var probe := probes[p];
      var previous := probe.state;
      probe.ReceiveHeartbeat(at);
      ok := persistOk;
      if !ok {
        probe.state := previous;
      }
      assert ProbeValues() == if ok then old(ProbeValues())[p := Beaten(previous, at)] else old(ProbeValues());
      assert forall c | c in quorums :: quorums[c].Value() == old(quorums[c].Value());
      assert QuorumValues() == old(QuorumValues());
    }

    /** Propagates a probe's degradation into each assigned child, quorums visited in any order. */
    method ApplyProbeDegradation(p: ProbeId)
      requires Valid()
      modifies quorums.Values, Children()
      ensures Valid() && probes == old(probes) && quorums == old(quorums) && Children() <= old(Children())
      ensures Abs() == old(Abs()).(quorums := DegradeAll(old(Abs()).quorums, p))
    {
      hide QuorumValues, ProbeValues, Valid, Degraded, DegradeBut, DegradeAll, Abs;
      ghost var rt := Abs();
      KeysAreKept();
      DegradeEnds(rt.quorums, p);
      var rest := quorums.Keys;
      while rest != {}
        invariant rest <= quorums.Keys
        invariant Valid() && probes == old(probes) && quorums == old(quorums) && Children() <= old(Children())
        invariant Abs() == rt.(quorums := DegradeBut(rt.quorums, rest, p))
        decreases rest
      {
        var c :| c in rest;
        DegradeNext(rt.quorums, rest, c, p);
        rest := rest - {c};
        DegradeOne(c, p);
      }
    }

    method DegradeOne(c: CheckId, p: ProbeId)
      requires Valid() && c in quorums
      modifies quorums.Values, Children()
      ensures Valid() && probes == old(probes) && quorums == old(quorums) && Children() <= old(Children())
      ensures Abs() == old(Abs()).(quorums := old(Abs()).quorums[c := Degraded(old(Abs()).quorums[c], p)])
    {
      var quorum := quorums[c];
      assert quorum.Value() == Abs().quorums[c];
      DegradeQuorum(quorum, p);
      OthersKept(c);
      ChildrenShrink(c);
    }

    // ---- Sweeps ---------------------------------------------------------------------------------

    /** While the lock is free any other operation may run; in a quiet moment none does. */
    method LockFree(ghost quiet: bool)
      requires Valid()
      modifies this, probes.Values, quorums.Values, Children()
      ensures Valid()
      ensures fresh(probes.Values - old(probes.Values)) && fresh(quorums.Values - old(quorums.Values))
      ensures fresh(Children() - old(Children()))
      ensures quiet ==> Abs() == old(Abs()) && probes == old(probes)
    {
    }

    /** One probe of a probe sweep, under the lock. */
    method ExpireIfStale(p: ProbeId, now: Time, offlineAfter: int) returns (expired: bool)
      requires Valid() && p in probes
      modifies probes.Values, quorums.Values, Children()
      ensures Valid() && probes == old(probes) && quorums == old(quorums) && Children() <= old(Children())
      ensures expired == Silent(old(Abs()), p, now, offlineAfter)
      ensures Abs() == SweepProbe(old(Abs()), p, now, offlineAfter)
    {
      hide Tally, DegradeAll;
      var probe := probes[p];
      assert Abs().probes[p] == probe.state;
      expired := HeartbeatStale(probe.state, now, offlineAfter);
      if expired {
        probe.ExpireHeartbeat();
        assert ProbeValues() == old(ProbeValues())[p := Expired(old(probe.state))];
        assert forall c | c in quorums :: quorums[c].Value() == old(quorums[c].Value());
        assert QuorumValues() == old(QuorumValues());
        ApplyProbeDegradation(p);
      }
    }

    /** Takes the lock for one probe, after whatever happened while it was free. */
    method SweepNextProbe(p: ProbeId, now: Time, offlineAfter: int, ghost quiet: bool)
      returns (known: bool, expired: bool, ghost before: RuntimeState)
      requires Valid()
      modifies this, probes.Values, quorums.Values, Children()
      ensures Valid() && known == (p in before.probes)
      ensures fresh(probes.Values - old(probes.Values)) && fresh(quorums.Values - old(quorums.Values))
      ensures fresh(Children() - old(Children()))
      ensures quiet ==> before == old(Abs())
      ensures Abs() == SweepProbe(before, p, now, offlineAfter)
      ensures expired == Silent(before, p, now, offlineAfter)
    {
      hide Valid, QuorumValues, ProbeValues, DegradeAll;
      LockFree(quiet);
      before := Abs();
      KeysAreKept();
      known, expired := p in probes, false;
      if known {
        expired := ExpireIfStale(p, now, offlineAfter);
      }
    }

    /**
      Expires stale heartbeats, one lock per probe, in any order, with anything happening while the lock is free.
      It counts the probes that were stale when reached, each expired under its own lock, each once, and each known
      when the sweep began. Without interference this is the sweep of these probes in that order, and no stale
      heartbeat is left.
     */
    method SweepStaleProbes(now: Time, offlineAfter: int, ghost quiet: bool)
      returns (expired: nat, ok: bool, ghost steps: seq<ExpiryStep>)
      requires Valid()
      modifies this, probes.Values, quorums.Values, Children()
      ensures Valid() && expired == |steps| && AllExpiries(steps, now, offlineAfter)
      ensures OnceEach(steps, old(Abs()).probes.Keys)
      ensures offlineAfter <= 0 ==> !ok && steps == [] && Abs() == old(Abs())
      ensures quiet && offlineAfter > 0 ==>
                && ok
                && Abs() == SweepProbes(old(Abs()), ProbesOf(steps), now, offlineAfter)
                && forall p :: !Silent(Abs(), p, now, offlineAfter)
    {
      hide Valid, QuorumValues, ProbeValues, ProbesUnderway, SweepProbe, Silent, AllExpiries, ProbesOf, SweepProbes, OnceEach;
      expired, ok, steps := 0, offlineAfter > 0, [];
      ghost var rt := Abs();
      ProbeSweepBegins(rt, now, offlineAfter, quiet);
      if !ok {
        return;
      }
      KeysAreKept();
      var rest := probes.Keys;
      while rest != {}
        invariant Valid() && ok && expired == |steps| && ProbesUnderway(rt, Abs(), steps, rest, now, offlineAfter, quiet)
        invariant fresh(probes.Values - old(probes.Values)) && fresh(quorums.Values - old(quorums.Values))
        invariant fresh(Children() - old(Children()))
        decreases rest
      {
        var p :| p in rest;
        ghost var current := Abs();
        var known, stale;
        ghost var before;
        known, stale, before := SweepNextProbe(p, now, offlineAfter, quiet);
        ProbeSweepAdvances(rt, current, steps, rest, now, offlineAfter, quiet, p, before);
        if !known {
          return expired, false, steps;
        }
        rest := rest - {p};
        if stale {
          expired := expired + 1;
          steps := steps + [ExpiryStep(p, before, Abs())];
        }
      }
      ProbeSweepEnds(rt, Abs(), steps, now, offlineAfter, quiet);
    }

    /** Clears and persists the evidence of one assignment, or restores it. */
    method ClearEvidence(c: CheckId, p: ProbeId, lookup: Lookup, persistOk: bool) returns (outcome: SweepOutcome)
      requires Valid() && c in quorums && p in quorums[c].checks
      modifies quorums.Values, Children()
      ensures Valid() && probes == old(probes) && quorums == old(quorums) && fresh(Children() - old(Children()))
      ensures var q := old(Abs()).quorums[c];
              var r := LostBy(q, p);
              if (q.state.lastStable != r.state.lastStable && lookup.LookupFailed?) || !persistOk then
                outcome == Failed && Abs() == old(Abs())
              else
                outcome == Committed(LossWrite(c, p, q, r, lookup)) && Abs() == old(Abs()).(quorums := old(Abs()).quorums[c := r])
    {
      hide Tally, LossWrite, LostBy;
      var quorum := quorums[c];
      assert quorum.Value() == Abs().quorums[c];
      outcome := LoseOrRestore(quorum, c, p, lookup, persistOk);
      OthersKept(c);
    }

    /** One assignment of an evidence sweep, under the lock. */
    method SweepLocked(c: CheckId, p: ProbeId, now: Time, lookup: Lookup, persistOk: bool) returns (outcome: SweepOutcome)
      requires Valid()
      modifies quorums.Values, Children()
      ensures Valid() && probes == old(probes) && quorums == old(quorums) && fresh(Children() - old(Children()))
      ensures Swept(Abs(), outcome) == SweepAssignment(old(Abs()), c, p, now, lookup, persistOk)
      ensures outcome.Committed? || outcome.Failed? <==> DeadlinePassed(old(Abs()), c, p, now)
    {
      hide LostBy, LossWrite, Valid;
      if c !in quorums {
        return UnknownCheck;
      }
      assert quorums[c].Value() == Abs().quorums[c];
      if p !in quorums[c].checks {
        return UnknownAssignment;
      }
      if !Stale(quorums[c].checks[p].state, now) {
        return Skipped;
      }
      outcome := ClearEvidence(c, p, lookup, persistOk);
    }

    /** Takes the lock for one assignment, after whatever happened while it was free. */
    method SweepNext(c: CheckId, p: ProbeId, now: Time, lookup: Lookup, persistOk: bool, ghost quiet: bool)
      returns (outcome: SweepOutcome, ghost before: RuntimeState)
      requires Valid()
      modifies this, probes.Values, quorums.Values, Children()
      ensures Valid()
      ensures fresh(probes.Values - old(probes.Values)) && fresh(quorums.Values - old(quorums.Values))
      ensures fresh(Children() - old(Children()))
      ensures quiet ==> before == old(Abs())
      ensures Swept(Abs(), outcome) == SweepAssignment(before, c, p, now, lookup, persistOk)
      ensures outcome.Committed? || outcome.Failed? <==> DeadlinePassed(before, c, p, now)
    {
      hide Valid, QuorumValues, ProbeValues, SweepAssignment, DeadlinePassed;
      LockFree(quiet);
      before := Abs();
      outcome := SweepLocked(c, p, now, lookup, persistOk);
    }

    /** The assignments whose evidence is stale now. */
    method StaleAssignments(now: Time) returns (work: set<(CheckId, ProbeId)>)
      requires Valid()
      ensures StaleWithin(Abs(), now, work)
      ensures OnlyStale(Abs(), now, work)
    {
      work := {};
      var rest := quorums.Keys;
      while rest != {}
        invariant rest <= quorums.Keys
        invariant forall c, p | (c, p) in work :: c in quorums && p in quorums[c].checks && Stale(quorums[c].checks[p].state, now)
        invariant forall c, p | c in quorums && c !in rest && p in quorums[c].checks ::
                    Stale(quorums[c].checks[p].state, now) ==> (c, p) in work
        decreases rest
      {
        var c :| c in rest;
        rest := rest - {c};
        var probesLeft := quorums[c].checks.Keys;
        while probesLeft != {}
          invariant probesLeft <= quorums[c].checks.Keys
          invariant forall d, p | (d, p) in work :: d in quorums && p in quorums[d].checks && Stale(quorums[d].checks[p].state, now)
          invariant forall d, p | d in quorums && d !in rest && d != c && p in quorums[d].checks ::
                      Stale(quorums[d].checks[p].state, now) ==> (d, p) in work
          invariant forall p | p in quorums[c].checks && p !in probesLeft ::
                      Stale(quorums[c].checks[p].state, now) ==> (c, p) in work
          decreases probesLeft
        {
          var p :| p in probesLeft;
          probesLeft := probesLeft - {p};
          if Stale(quorums[c].checks[p].state, now) {
            work := work + {(c, p)};
          }
        }
      }
    }

    /**
      Expires stale evidence, one lock per assignment, in any order, with anything happening while the lock is
      free. It takes only assignments that were stale when it began, each once and, unless an error stops it, all of
      them; it counts the committed expiries, stops at the first error and changes nothing after its last step.
      Without interference each step starts where the one before it ended, and without error nothing stale is left.
     */
    method SweepStaleEvidence(now: Time, lookup: (CheckId, ProbeId) -> Lookup, persist: (CheckId, ProbeId) -> bool, ghost quiet: bool)
      returns (expired: nat, writes: seq<MonitoringWrite>, failure: Option<SweepOutcome>, ghost steps: seq<LockedStep>)
      requires Valid()
      modifies this, probes.Values, quorums.Values, Children()
      ensures Valid() && expired == |writes| && writes == CommittedWrites(steps)
      ensures AllSweeps(steps, now, lookup, persist) && StoppedBy(steps, failure) && Abs() == EndOf(old(Abs()), steps)
      ensures |Taken(steps)| == |steps| && OnlyStale(old(Abs()), now, Taken(steps))
      ensures failure.None? ==> StaleWithin(old(Abs()), now, Taken(steps))
      ensures forall i | 0 <= i < |writes| :: writes[i].row.child.lastOutcome == None
      ensures quiet ==> Chained(old(Abs()), steps)
      ensures quiet && failure.None? ==> NothingStale(Abs(), now)
    {
      hide Valid, QuorumValues, ProbeValues, Underway, SweepAssignment, AllSweeps, StoppedBy, CommittedWrites, Taken, EndOf,
        Chained, OnlyStale, StaleWithin, NothingStale, DeadlinePassed;
      ghost var rt := Abs();
      expired, writes, failure, steps := 0, [], None, [];
      var work := StaleAssignments(now);
      SweepBegins(rt, now, lookup, persist, work, quiet);
      while work != {}
        invariant Valid() && failure.None? && expired == |writes| && Abs() == EndOf(rt, steps)
        invariant Underway(rt, steps, writes, now, lookup, persist, work, quiet)
        invariant fresh(probes.Values - old(probes.Values)) && fresh(quorums.Values - old(quorums.Values))
        invariant fresh(Children() - old(Children()))
        decreases work
      {
        var a :| a in work;
        var outcome;
        ghost var before;
        outcome, before := SweepNext(a.0, a.1, now, lookup(a.0, a.1), persist(a.0, a.1), quiet);
        ghost var step := LockedStep(a.0, a.1, before, outcome, Abs());
        SweepAdvances(rt, steps, writes, now, lookup, persist, work, quiet, step);
        work := work - {a};
        steps := steps + [step];
        match outcome {
          case Skipped =>
          case Committed(write) => expired, writes := expired + 1, writes + [write];
          case _ => return expired, writes, Some(outcome), steps;
        }
      }
      SweepEnds(rt, steps, writes, now, lookup, persist, quiet);
    }

    // ---- Recovery -------------------------------------------------------------------------------

    /** Loads one durable row; rows of unknown checks or probes are ignored. */
    method LoadRow(c: CheckId, p: ProbeId, child: CheckExecState)
      requires Valid()
      modifies quorums.Values, Children()
      ensures Valid() && probes == old(probes) && quorums == old(quorums) && fresh(Children() - old(Children()))
      ensures Abs() == RowLoaded(old(Abs()), c, p, child)
    {
      hide Joined;
      if c in quorums && p in probes {
        var quorum := quorums[c];
        assert quorum.Value() == Abs().quorums[c];
        LoadChild(quorum, p, child);
        OthersKept(c);
      }
    }

    /** Marks a probe as seen alive. */
    method MarkSeen(p: ProbeId, at: Time)
      requires Valid()
      modifies probes.Values
      ensures Valid() && probes == old(probes) && quorums == old(quorums)
      ensures Abs() == if p in probes then old(Abs()).(probes := old(Abs()).probes[p := ProbeRuntimeState(Online, Some(at))])
                       else old(Abs())
    {
      if p in probes {
        probes[p].state := ProbeRuntimeState(Online, Some(at));
        assert ProbeValues() == old(ProbeValues())[p := ProbeRuntimeState(Online, Some(at))];
        assert forall c | c in quorums :: quorums[c].Value() == old(quorums[c].Value());
        assert QuorumValues() == old(QuorumValues());
      }
    }

    /** Starts one recovered quorum over from what the store says about its incident, and recomputes it. */
    method StartOver(c: CheckId, incidentOpen: bool)
      requires Valid() && c in quorums
      modifies quorums.Values
      ensures Valid() && probes == old(probes) && quorums == old(quorums) && Children() <= old(Children())
      ensures Abs() == old(Abs()).(quorums := old(Abs()).quorums[c := RecoveredQuorum(old(Abs()).quorums[c].checks, incidentOpen)])
    {
      hide RecoveredQuorum;
      var quorum := quorums[c];
      assert quorum.Value() == Abs().quorums[c];
      StartOverQuorum(quorum, incidentOpen);
      OthersKept(c);
      ChildrenShrink(c);
    }
  }

  method DegradeQuorum(quorum: QuorumMachine, p: ProbeId)
    requires quorum.Valid()
    modifies quorum`state, quorum.checks.Values
    ensures quorum.Valid() && quorum.Value() == Degraded(old(quorum.Value()), p)
  {
    hide Recomputed;
    if p in quorum.checks {
      var known := quorum.LoseEvidence(p);
    }
  }

  method LoadChild(quorum: QuorumMachine, p: ProbeId, child: CheckExecState)
    requires quorum.Valid()
    modifies quorum, quorum.checks.Values
    ensures quorum.Valid()
    ensures var joined := Joined(old(quorum.Value()), p);
            quorum.Value() == joined.(checks := joined.checks[p := child])
    ensures forall m | m in quorum.checks.Values && m !in old(quorum.checks.Values) :: fresh(m)
  {
    hide Joined;
    quorum.AddProbe(p);
    ghost var joined := quorum.Value();
    quorum.checks[p].state := child;
    assert quorum.Children() == joined.checks[p := child];
  }

  method StartOverQuorum(quorum: QuorumMachine, incidentOpen: bool)
    requires quorum.Valid()
    modifies quorum`state
    ensures quorum.Valid() && quorum.Value() == RecoveredQuorum(old(quorum.Value()).checks, incidentOpen)
  {
    hide Recomputed;
    quorum.state := NEW_QUORUM_STATE;
    if incidentOpen {
      quorum.state := quorum.state.(state := QuorumState.Down);
      quorum.state := quorum.state.(lastStable := Some(QuorumState.Down));
      quorum.state := quorum.state.(incidentOpen := true);
    }
    assert quorum.Value() == Quorum(RecoveryState(incidentOpen), old(quorum.Value()).checks);
    quorum.Recompute();
  }

  /** Clears one child's evidence and persists it; a failed lookup or persist restores child and quorum. */
  method LoseOrRestore(quorum: QuorumMachine, c: CheckId, p: ProbeId, lookup: Lookup, persistOk: bool) returns (outcome: SweepOutcome)
    requires quorum.Valid() && p in quorum.checks
    modifies quorum, quorum.checks.Values
    ensures quorum.Valid() && quorum.checks == old(quorum.checks)
    ensures var q := old(quorum.Value());
            var r := LostBy(q, p);
            if (q.state.lastStable != r.state.lastStable && lookup.LookupFailed?) || !persistOk then
              outcome == Failed && quorum.Value() == q
            else outcome == Committed(LossWrite(c, p, q, r, lookup)) && quorum.Value() == r
  {
    hide Tally, IncidentFor;
    ghost var q := quorum.Value();
    var previousCheck, previousQuorum := quorum.checks[p].state, quorum.state;
    var known := quorum.LoseEvidence(p);
    ghost var r := quorum.Value();
    var incident: Option<IncidentWrite> := None;
    var failed := false;
    if previousQuorum.lastStable != quorum.state.lastStable {
      match lookup {
        case LookupFailed => failed := true;
        case NotFound =>
        case Found(check) => incident := IncidentOf(check, quorum, previousQuorum);
      }
    }
    if failed || !persistOk {
      quorum.checks[p].state := previousCheck;
      quorum.state := previousQuorum;
      outcome := Failed;
      assert quorum.Children() == q.checks;
    } else {
      outcome := Committed(MonitoringWrite(CheckStateWrite(c, p, quorum.checks[p].state), incident));
      assert quorum.checks[p].state == r.checks[p];
    }
  }

  lemma SweepWritesLoss(rt: RuntimeState, c: CheckId, p: ProbeId, now: Time, lookup: Lookup, ok: bool)
    ensures var o := SweepAssignment(rt, c, p, now, lookup, ok).outcome;
            o.Committed? ==> o.write.row.child.lastOutcome == None
  {
    hide Tally, IncidentFor;
  }

  lemma NoSteps(rt: RuntimeState, now: Time, lookup: (CheckId, ProbeId) -> Lookup, persist: (CheckId, ProbeId) -> bool)
    ensures AllSweeps([], now, lookup, persist) && CommittedWrites([]) == [] && StoppedBy([], None)
    ensures Taken([]) == {} && EndOf(rt, []) == rt && Chained(rt, [])
  {
  }

  lemma StepsExtend(rt: RuntimeState, steps: seq<LockedStep>, s: LockedStep, now: Time,
                    lookup: (CheckId, ProbeId) -> Lookup, persist: (CheckId, ProbeId) -> bool)
    requires AllSweeps(steps, now, lookup, persist) && IsSweep(s, now, lookup, persist) && StoppedBy(steps, None)
    ensures AllSweeps(steps + [s], now, lookup, persist)
    ensures CommittedWrites(steps + [s]) == CommittedWrites(steps) + (if s.outcome.Committed? then [s.outcome.write] else [])
    ensures StoppedBy(steps + [s], if Proceeds(s.outcome) then None else Some(s.outcome))
    ensures Taken(steps + [s]) == Taken(steps) + {(s.check, s.probe)}
    ensures EndOf(rt, steps + [s]) == s.after
    ensures Chained(rt, steps) && s.before == EndOf(rt, steps) ==> Chained(rt, steps + [s])
  {
    hide SweepAssignment, DeadlinePassed;
    assert (steps + [s])[..|steps|] == steps;
  }

  /** A sweep between two locks: what it has done, and the assignments it has still to take. */
  ghost predicate Underway(rt: RuntimeState, steps: seq<LockedStep>, writes: seq<MonitoringWrite>, now: Time,
                           lookup: (CheckId, ProbeId) -> Lookup, persist: (CheckId, ProbeId) -> bool,
                           work: set<(CheckId, ProbeId)>, quiet: bool)
  {
    && AllSweeps(steps, now, lookup, persist) && StoppedBy(steps, None) && writes == CommittedWrites(steps)
    && (forall i | 0 <= i < |writes| :: writes[i].row.child.lastOutcome == None)
    && |Taken(steps)| == |steps| && Taken(steps) !! work
    && OnlyStale(rt, now, Taken(steps) + work) && StaleWithin(rt, now, Taken(steps) + work)
    && (quiet ==> Chained(rt, steps) && StaleWithin(EndOf(rt, steps), now, work))
  }

  lemma SweepBegins(rt: RuntimeState, now: Time, lookup: (CheckId, ProbeId) -> Lookup, persist: (CheckId, ProbeId) -> bool,
                    work: set<(CheckId, ProbeId)>, quiet: bool)
    requires OnlyStale(rt, now, work) && StaleWithin(rt, now, work)
    ensures Underway(rt, [], [], now, lookup, persist, work, quiet) && EndOf(rt, []) == rt
  {
    hide OnlyStale, StaleWithin;
    NoSteps(rt, now, lookup, persist);
    assert Taken([]) + work == work;
  }

  lemma SweepAdvances(rt: RuntimeState, steps: seq<LockedStep>, writes: seq<MonitoringWrite>, now: Time,
                      lookup: (CheckId, ProbeId) -> Lookup, persist: (CheckId, ProbeId) -> bool,
                      work: set<(CheckId, ProbeId)>, quiet: bool, s: LockedStep)
    requires Underway(rt, steps, writes, now, lookup, persist, work, quiet) && (s.check, s.probe) in work
    requires Swept(s.after, s.outcome) ==
               SweepAssignment(s.before, s.check, s.probe, now, lookup(s.check, s.probe), persist(s.check, s.probe))
    requires s.outcome.Committed? || s.outcome.Failed? <==> DeadlinePassed(s.before, s.check, s.probe, now)
    requires quiet ==> s.before == EndOf(rt, steps)
    ensures EndOf(rt, steps + [s]) == s.after
    ensures s.outcome.Committed? ==>
              Underway(rt, steps + [s], writes + [s.outcome.write], now, lookup, persist, work - {(s.check, s.probe)}, quiet)
    ensures s.outcome.Skipped? ==>
              Underway(rt, steps + [s], writes, now, lookup, persist, work - {(s.check, s.probe)}, quiet)
    ensures !s.outcome.Committed? && !s.outcome.Skipped? ==>
              && AllSweeps(steps + [s], now, lookup, persist) && StoppedBy(steps + [s], Some(s.outcome))
              && writes == CommittedWrites(steps + [s])
              && (forall i | 0 <= i < |writes| :: writes[i].row.child.lastOutcome == None)
              && |Taken(steps + [s])| == |steps + [s]| && OnlyStale(rt, now, Taken(steps + [s]))
              && (quiet ==> Chained(rt, steps + [s]))
  {
    hide SweepAssignment, AllSweeps, StoppedBy, CommittedWrites, Taken, OnlyStale, StaleWithin, Chained, EndOf, DeadlinePassed;
    var a := (s.check, s.probe);
    StepsExtend(rt, steps, s, now, lookup, persist);
    SweepWritesLoss(s.before, a.0, a.1, now, lookup(a.0, a.1), persist(a.0, a.1));
    FewerAreStale(rt, now, Taken(steps + [s]), Taken(steps) + work);
    assert Taken(steps + [s]) + (work - {a}) == Taken(steps) + work;
    if quiet {
      SweepShrinksWork(s.before, now, work, a.0, a.1, lookup(a.0, a.1), persist(a.0, a.1));
    }
  }

  lemma SweepEnds(rt: RuntimeState, steps: seq<LockedStep>, writes: seq<MonitoringWrite>, now: Time,
                  lookup: (CheckId, ProbeId) -> Lookup, persist: (CheckId, ProbeId) -> bool, quiet: bool)
    requires Underway(rt, steps, writes, now, lookup, persist, {}, quiet)
    ensures AllSweeps(steps, now, lookup, persist) && StoppedBy(steps, None) && writes == CommittedWrites(steps)
    ensures forall i | 0 <= i < |writes| :: writes[i].row.child.lastOutcome == None
    ensures |Taken(steps)| == |steps| && OnlyStale(rt, now, Taken(steps)) && StaleWithin(rt, now, Taken(steps))
    ensures quiet ==> Chained(rt, steps) && NothingStale(EndOf(rt, steps), now)
  {
    hide AllSweeps, StoppedBy, CommittedWrites, Taken, OnlyStale, StaleWithin, Chained, EndOf, NothingStale;
    assert Taken(steps) + {} == Taken(steps);
    if quiet {
      NoneLeft(EndOf(rt, steps), now);
    }
  }

  lemma FewerAreStale(rt: RuntimeState, now: Time, fewer: set<(CheckId, ProbeId)>, work: set<(CheckId, ProbeId)>)
    requires OnlyStale(rt, now, work) && fewer <= work
    ensures OnlyStale(rt, now, fewer)
  {
  }

  lemma NoneLeft(rt: RuntimeState, now: Time)
    requires StaleWithin(rt, now, {})
    ensures NothingStale(rt, now)
  {
  }

  /** A probe sweep between two locks: what it has done, and the probes it has still to take. */
  ghost predicate ProbesUnderway(rt: RuntimeState, current: RuntimeState, steps: seq<ExpiryStep>, rest: set<ProbeId>,
                                 now: Time, offlineAfter: int, quiet: bool)
  {
    && AllExpiries(steps, now, offlineAfter) && rest <= rt.probes.Keys && OnceEach(steps, rt.probes.Keys - rest)
    && (quiet ==>
          && current.probes.Keys == rt.probes.Keys
          && current == SweepProbes(rt, ProbesOf(steps), now, offlineAfter)
          && forall p | p !in rest :: !Silent(current, p, now, offlineAfter))
  }

  lemma ProbeSweepBegins(rt: RuntimeState, now: Time, offlineAfter: int, quiet: bool)
    ensures ProbesUnderway(rt, rt, [], rt.probes.Keys, now, offlineAfter, quiet)
    ensures AllExpiries([], now, offlineAfter) && OnceEach([], rt.probes.Keys)
  {
  }

  lemma ProbeSweepAdvances(rt: RuntimeState, current: RuntimeState, steps: seq<ExpiryStep>, rest: set<ProbeId>,
                           now: Time, offlineAfter: int, quiet: bool, p: ProbeId, before: RuntimeState)
    requires ProbesUnderway(rt, current, steps, rest, now, offlineAfter, quiet) && p in rest
    requires quiet ==> before == current
    ensures AllExpiries(steps, now, offlineAfter) && OnceEach(steps, rt.probes.Keys)
    ensures quiet ==> p in before.probes
    ensures var after := SweepProbe(before, p, now, offlineAfter);
            var steps' := if Silent(before, p, now, offlineAfter) then steps + [ExpiryStep(p, before, after)] else steps;
            p in before.probes ==> ProbesUnderway(rt, after, steps', rest - {p}, now, offlineAfter, quiet)
  {
    hide SweepProbe, Silent, AllExpiries, ProbesOf, SweepProbes, OnceEach;
    OnceAmongMore(steps, rt.probes.Keys - rest, rt.probes.Keys);
    if p in before.probes {
      var after := SweepProbe(before, p, now, offlineAfter);
      var s := ExpiryStep(p, before, after);
      assert rt.probes.Keys - (rest - {p}) == (rt.probes.Keys - rest) + {p};
      ExpiryClearsOne(before, p, now, offlineAfter);
      if Silent(before, p, now, offlineAfter) {
        StepExtends(rt, steps, s, now, offlineAfter);
        OnceExtends(steps, s, rt.probes.Keys - rest);
      } else {
        OnceAmongMore(steps, rt.probes.Keys - rest, rt.probes.Keys - (rest - {p}));
      }
    }
  }

  lemma ProbeSweepEnds(rt: RuntimeState, current: RuntimeState, steps: seq<ExpiryStep>, now: Time, offlineAfter: int, quiet: bool)
    requires ProbesUnderway(rt, current, steps, {}, now, offlineAfter, quiet)
    ensures AllExpiries(steps, now, offlineAfter) && OnceEach(steps, rt.probes.Keys)
    ensures quiet ==>
              && current == SweepProbes(rt, ProbesOf(steps), now, offlineAfter)
              && forall p :: !Silent(current, p, now, offlineAfter)
  {
    assert rt.probes.Keys - {} == rt.probes.Keys;
  }

  lemma OnceAmongMore(steps: seq<ExpiryStep>, among: set<ProbeId>, more: set<ProbeId>)
    requires OnceEach(steps, among) && among <= more
    ensures OnceEach(steps, more)
  {
  }

  lemma OnceExtends(steps: seq<ExpiryStep>, s: ExpiryStep, among: set<ProbeId>)
    requires OnceEach(steps, among) && s.probe !in among
    ensures OnceEach(steps + [s], among + {s.probe})
  {
  }

  lemma StepExtends(rt: RuntimeState, steps: seq<ExpiryStep>, s: ExpiryStep, now: Time, offlineAfter: int)
    requires AllExpiries(steps, now, offlineAfter)
    requires Silent(s.before, s.probe, now, offlineAfter) && s.after == SweepProbe(s.before, s.probe, now, offlineAfter)
    ensures AllExpiries(steps + [s], now, offlineAfter)
    ensures ProbesOf(steps + [s]) == ProbesOf(steps) + [s.probe]
    ensures SweepProbes(rt, ProbesOf(steps + [s]), now, offlineAfter)
            == SweepProbe(SweepProbes(rt, ProbesOf(steps), now, offlineAfter), s.probe, now, offlineAfter)
  {
    hide SweepProbe;
    assert (steps + [s])[..|steps|] == steps;
    var ps := ProbesOf(steps);
    assert (ps + [s.probe])[..|ps|] == ps;
  }

  lemma ExpiryClearsOne(rt: RuntimeState, p: ProbeId, now: Time, offlineAfter: int)
    requires p in rt.probes
    ensures var after := SweepProbe(rt, p, now, offlineAfter);
            && after.probes.Keys == rt.probes.Keys
            && !Silent(after, p, now, offlineAfter)
            && (!Silent(rt, p, now, offlineAfter) ==> after == rt)
            && forall r | r != p :: Silent(after, r, now, offlineAfter) == Silent(rt, r, now, offlineAfter)
  {
  }

  lemma EnsureThenReport(rt: RuntimeState, item: ObservedResult)
    ensures var c := item.check.id;
            var e := Ensured(rt, c);
            && c in e.quorums && e.quorums[c] == QuorumOf(rt, c)
            && e.(quorums := e.quorums[c := ItemQuorum(rt, item)]) == ApplyItem(rt, item).rt
  {
    hide ItemQuorum;
  }

  /** Routes one result to its quorum, joining the probe first if it is new, and returns the child as it was before the result. */
  method Report(quorum: QuorumMachine, p: ProbeId, up: bool, at: Time, expiresAt: Time) returns (previous: CheckExecState)
    requires quorum.Valid()
    modifies quorum, quorum.checks.Values
    ensures quorum.Valid() && quorum.Value() == Reported(old(quorum.Value()), p, up, at, expiresAt)
    ensures p in quorum.checks && previous == Joined(old(quorum.Value()), p).checks[p]
    ensures forall m | m in quorum.checks.Values && m !in old(quorum.checks.Values) :: fresh(m)
  {
    hide Recomputed;
    quorum.AddProbe(p);
    previous := quorum.checks[p].state;
    assert quorum.Value().checks[p] == previous;
    if up {
      var known := quorum.ObserveUp(p, at, Some(expiresAt));
    } else {
      var known := quorum.ObserveDown(p, at, Some(expiresAt));
    }
  }

  /** The incident side effect of the event that just moved the quorum. */
  method IncidentOf(check: CheckDef, quorum: QuorumMachine, previous: CheckQuorumState) returns (w: Option<IncidentWrite>)
    ensures w == IncidentFor(check, quorum.Value(), previous)
  {
    if previous.lastStable == Some(QuorumState.Up) && quorum.state.lastStable == Some(QuorumState.Down) {
      var request := RequestOf(check, true, quorum);
      w := Some(IncidentWrite(false, request));
    } else if previous.incidentOpen && previous.lastStable == Some(QuorumState.Down)
              && quorum.state.lastStable == Some(QuorumState.Up) {
      var request := RequestOf(check, false, quorum);
      w := Some(IncidentWrite(true, request));
    } else {
      w := None;
    }
  }

  /** The durable webhook work item, with the current count of down children. */
  method RequestOf(check: CheckDef, down: bool, quorum: QuorumMachine) returns (r: Option<Payload>)
    ensures r == NotificationRequest(check, down, quorum.Value())
    ensures r.Some? <==> check.webhook != ""
    ensures r.Some? ==>
              && r.value.check == check.id && r.value.down == down && r.value.probesTotal == |quorum.checks|
              && r.value.probesDown == |set p | p in quorum.checks && quorum.checks[p].state.state == CheckState.Down|
  {
    if check.webhook == "" {
      return None;
    }
    var snapshots := map p | p in quorum.checks :: quorum.checks[p].state;
    var probesDown := CountDown(snapshots);
    assert snapshots == quorum.Children() && snapshots.Keys == quorum.checks.Keys;
    assert DownChildren(snapshots) == set p | p in quorum.checks && quorum.checks[p].state.state == CheckState.Down;
    r := Some(Payload(check.id, down, probesDown, |snapshots|));
  }

  method CountDown(checks: Children) returns (n: nat)
    ensures n == |DownChildren(checks)|
  {
    n := 0;
    var rest := checks.Keys;
    ghost var downs := DownChildren(checks);
    assert downs - rest == {};
    while rest != {}
      invariant rest <= checks.Keys && n == |downs - rest|
      decreases rest
    {
      var p :| p in rest;
      CountOne(downs, rest, p);
      if checks[p].state == CheckState.Down {
        n := n + 1;
      }
      rest := rest - {p};
    }
    assert downs - rest == downs;
  }
}
