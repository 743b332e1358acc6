/** The probe's check scheduler (cmd/wacht-probe/scheduler.go): one live worker per check, reconciled in place. */
module Schedulers {
  import opened MonitoringTypes

  datatype ProbeCheck = ProbeCheck(id: CheckId, name: string, kind: string, target: string, interval: int)

  /** The desired checks by ID; a later entry replaces an earlier one. */
  function LastWins(latest: seq<ProbeCheck>): (next: map<CheckId, ProbeCheck>)
    ensures forall id | id in next :: next[id].id == id
  {
    if latest == [] then map[]
    else
      var last := latest[|latest| - 1];
      LastWins(latest[..|latest| - 1])[last.id := last]
  }

  /** Position i holds the last entry of its ID. */
  ghost predicate LastOf(latest: seq<ProbeCheck>, i: nat) {
    i < |latest| && forall j | i < j < |latest| :: latest[j].id != latest[i].id
  }

  /** The map holds the last entry of every listed ID. */
  lemma {:induction false} LastEntryWins(latest: seq<ProbeCheck>, i: nat)
    requires LastOf(latest, i)
    ensures latest[i].id in LastWins(latest) && LastWins(latest)[latest[i].id] == latest[i]
    decreases |latest|
  {
    var n := |latest| - 1;
    if i < n {
      assert latest[n].id != latest[i].id;
      LastEntryWins(latest[..n], i);
    }
  }

  /** The map holds nothing else. */
  lemma {:induction false} WinnerIsLast(latest: seq<ProbeCheck>, id: CheckId) returns (i: nat)
    requires id in LastWins(latest)
    ensures LastOf(latest, i) && latest[i].id == id
    decreases |latest|
  {
    var n := |latest| - 1;
    if id == latest[n].id {
      i := n;
    } else {
      i := WinnerIsLast(latest[..n], id);
      assert forall j | i < j < n :: latest[..n][j] == latest[j];
    }
  }

  /** One running check: its definition, and the worker that its cancel function stops. */
  datatype RunningCheck = RunningCheck(check: ProbeCheck, worker: nat)

  type Running = map<CheckId, RunningCheck>

  /** A check that keeps its worker: it ran before and is desired unchanged. */
  predicate Unchanged(before: Running, desired: map<CheckId, ProbeCheck>, id: CheckId) {
    id in desired && id in before && before[id].check == desired[id]
  }

  /** One check ID is reconciled: it runs what is desired, by the worker it had if nothing changed, else by a new one. */
  predicate Settled(before: Running, known: nat, desired: map<CheckId, ProbeCheck>, now: Running, id: CheckId) {
    && (id in now <==> id in desired)
    && (id in desired ==> now[id].check == desired[id])
    && (Unchanged(before, desired, id) ==> now[id] == before[id])
    && (id in desired && !Unchanged(before, desired, id) ==> now[id].worker >= known)
  }

  /** The first pass with some of the running checks still to be visited. */
  ghost predicate Settling(before: Running, known: nat, desired: map<CheckId, ProbeCheck>, now: Running, rest: set<CheckId>) {
    && rest <= before.Keys
    && (forall id | id in before && id !in rest :: Settled(before, known, desired, now, id))
    && (forall id | id in rest :: id in now && now[id] == before[id])
    && (forall id | id in now :: id in before)
  }

  class Scheduler {
    var running: Running
    /** The workers that are alive, and how many were ever started. */
    var live: set<nat>
    var started: nat

    /** The live workers are exactly the running ones, one per check ID. */
    ghost predicate Valid()
      reads this
    {
      && (forall id | id in running :: running[id].check.id == id && running[id].worker in live)
      && (forall c, d | c in running && d in running && c != d :: running[c].worker != running[d].worker)
      && (forall w | w in live :: w < started && exists id :: id in running && running[id].worker == w)
    }

    constructor ()
      ensures Valid() && running == map[] && started == 0
    {
      running := map[];
      live := {};
      started := 0;
    }

    /** A new worker for a check that has none. */
    method StartWorker(check: ProbeCheck)
      requires Valid() && check.id !in running
      modifies this
      ensures Valid() && started == old(started) + 1 && live == old(live) + {old(started)}
      ensures running == old(running)[check.id := RunningCheck(check, old(started))]
    {
      ghost var before := running;
      running := running[check.id := RunningCheck(check, started)];
      live := live + {started};
      started := started + 1;
      assert forall id | id in before :: running[id] == before[id];
      assert running[check.id].worker == started - 1;
    }

    method CancelWorker(id: CheckId)
      requires Valid() && id in running
      modifies this`running, this`live
      ensures Valid() && running == old(running) - {id} && live == old(live) - {old(running[id]).worker}
    {
      ghost var before := running;
      live := live - {running[id].worker};
      running := running - {id};
      forall w | w in live ensures exists d :: d in running && running[d].worker == w {
        var d :| d in before && before[d].worker == w;
        assert d in running;
      }
    }

    /** The desired map, built entry by entry. */
    method Desired(latest: seq<ProbeCheck>) returns (next: map<CheckId, ProbeCheck>)
      ensures next == LastWins(latest)
    {
      next := map[];
      for i := 0 to |latest|
        invariant next == LastWins(latest[..i])
      {
        assert latest[..i + 1][..i] == latest[..i];
        next := next[latest[i].id := latest[i]];
      }
      assert latest[..|latest|] == latest;
    }

    /** One running check: cancelled if gone, replaced if changed, untouched otherwise. */
    method SettleOne(id: CheckId, next: map<CheckId, ProbeCheck>)
      requires Valid() && id in running && (id in next ==> next[id].id == id)
      modifies this
      ensures Valid() && old(started) <= started && running - {id} == old(running) - {id}
      ensures Settled(old(running), old(started), next, running, id)
      ensures forall w | w in old(live) && w != old(running[id]).worker :: w in live
      ensures forall w | old(started) <= w < started :: w in live
    {
      if id !in next {
        CancelWorker(id);
      } else if running[id].check != next[id] {
        CancelWorker(id);
        StartWorker(next[id]);
      }
    }

    /** The first pass, in any order: running checks that are gone or changed lose their worker; what is left has none yet. */
    method SettleRunning(desired: map<CheckId, ProbeCheck>) returns (next: map<CheckId, ProbeCheck>)
      requires Valid() && forall id | id in desired :: desired[id].id == id
      modifies this
      ensures Valid() && old(started) <= started && Settling(old(running), old(started), desired, running, {})
      ensures next == desired - old(running).Keys
      ensures forall w | old(started) <= w < started :: w in live
    {
      hide Valid;
      WorkersAreDistinct();
      next := desired;
      ghost var before, known := running, started;
      var rest := running.Keys;
      while rest != {}
        invariant Valid() && known <= started && Settling(before, known, desired, running, rest)
        invariant next == desired - (before.Keys - rest)
        invariant forall w | known <= w < started :: w in live
        decreases rest
      {
        var id :| id in rest;
        ghost var was := running;
        ghost var from := started;
        SettleOne(id, next);
        SettleNext(before, known, desired, rest, was, from, next, running, id);
        rest := rest - {id};
        next := next - {id};
      }
    }

    /** The second pass, in any order: every check that has no worker gets one, and no worker there is touched. */
    method StartMissing(missing: map<CheckId, ProbeCheck>)
      requires Valid() && forall id | id in missing :: missing[id].id == id && id !in running
      modifies this
      ensures Valid() && running.Keys == old(running).Keys + missing.Keys && old(started) <= started
      ensures forall id | id in old(running) :: running[id] == old(running[id])
      ensures forall id | id in missing :: running[id].check == missing[id] && running[id].worker >= old(started)
      ensures old(live) <= live && forall w | old(started) <= w < started :: w in live
    {
      hide Valid;
      var next := missing;
      while next != map[]
        invariant Valid() && next.Keys <= missing.Keys && old(started) <= started
        invariant forall id | id in next :: next[id] == missing[id]
        invariant running.Keys == old(running).Keys + (missing.Keys - next.Keys)
        invariant forall id | id in old(running) :: running[id] == old(running[id])
        invariant forall id | id in missing && id !in next :: running[id].check == missing[id] && running[id].worker >= old(started)
        invariant old(live) <= live && forall w | old(started) <= w < started :: w in live
        decreases next.Keys
      {
        var id :| id in next;
        var check := next[id];
        next := next - {id};
        StartWorker(check);
      }
    }

    /**
      Reconcile, for every order in which the maps are visited: afterwards exactly the desired checks run, each
      unchanged check by the worker it had; of the old workers exactly the unchanged ones are still alive, and of
      the new ones exactly one for every added or changed check.
     */
    method Reconcile(latest: seq<ProbeCheck>)
      requires Valid()
      modifies this
      ensures Valid() && old(started) <= started
      ensures forall id :: Settled(old(running), old(started), LastWins(latest), running, id)
      ensures forall id | id in old(running) :: old(running[id]).worker in live <==> Unchanged(old(running), LastWins(latest), id)
      ensures forall w | old(started) <= w < started :: w in live
    {
      hide Valid, LastWins, Settled, Settling;
      WorkersAreDistinct();
      var desired := Desired(latest);
      var next := SettleRunning(desired);
      ghost var settled, from := running, started;
      SettledKeys(old(running), old(started), desired, settled);
      StartMissing(next);
      BothPasses(old(running), old(started), desired, settled, from, running);
      KeptAlive(old(running), old(started), desired);
    }

    lemma WorkersAreDistinct()
      requires Valid()
      ensures forall id | id in running :: running[id].worker < started
      ensures forall c, d | c in running && d in running && c != d :: running[c].worker != running[d].worker
    {
    }

    /** An old worker lives on exactly if its check is unchanged. */
    lemma KeptAlive(before: Running, known: nat, desired: map<CheckId, ProbeCheck>)
      requires Valid() && forall id :: Settled(before, known, desired, running, id)
      requires forall id | id in before :: before[id].worker < known
      requires forall c, d | c in before && d in before && c != d :: before[c].worker != before[d].worker
      ensures forall id | id in before :: before[id].worker in live <==> Unchanged(before, desired, id)
    {
      forall id | id in before ensures before[id].worker in live <==> Unchanged(before, desired, id) {
        assert Settled(before, known, desired, running, id);
        if before[id].worker in live {
          var d :| d in running && running[d].worker == before[id].worker;
          assert Settled(before, known, desired, running, d);
        }
      }
    }

    /** Close cancels every worker; none is left alive. */
    method Close()
      requires Valid()
      modifies this`running, this`live
      ensures Valid() && running == map[] && live == {}
    {
      var rest := running.Keys;
      while rest != {}
        invariant Valid() && rest == running.Keys
        decreases rest
      {
        var id :| id in rest;
        rest := rest - {id};
        CancelWorker(id);
      }
    }
  }

  lemma SettledKeys(before: Running, known: nat, desired: map<CheckId, ProbeCheck>, settled: Running)
    requires Settling(before, known, desired, settled, {})
    ensures forall id | id in settled :: id in before
  {
  }

  /** Settling what ran and starting what was missing settles every check. */
  lemma BothPasses(before: Running, known: nat, desired: map<CheckId, ProbeCheck>, settled: Running, from: nat, now: Running)
    requires Settling(before, known, desired, settled, {}) && known <= from
    requires now.Keys == settled.Keys + (desired - before.Keys).Keys
    requires forall id | id in settled :: now[id] == settled[id]
    requires forall id | id in desired - before.Keys :: now[id].check == desired[id] && now[id].worker >= from
    ensures forall id :: Settled(before, known, desired, now, id)
  {
    forall id ensures Settled(before, known, desired, now, id) {
      if id in before {
        assert Settled(before, known, desired, settled, id);
      } else {
        assert id in desired <==> id in desired - before.Keys;
      }
    }
  }

  lemma SettleNext(before: Running, known: nat, desired: map<CheckId, ProbeCheck>, rest: set<CheckId>, was: Running, from: nat,
                   next: map<CheckId, ProbeCheck>, now: Running, id: CheckId)
    requires Settling(before, known, desired, was, rest) && id in rest && known <= from
    requires next == desired - (before.Keys - rest)
    requires Settled(was, from, next, now, id) && now - {id} == was - {id}
    ensures Settling(before, known, desired, now, rest - {id})
    ensures next - {id} == desired - (before.Keys - (rest - {id}))
  {
    assert forall d | d != id :: (d in now <==> d in now - {id}) && (d in was <==> d in was - {id});
    assert forall d | d != id && d in now :: now[d] == (now - {id})[d] && was[d] == (was - {id})[d];
    assert Settled(before, known, desired, now, id);
    forall d | d in before && d !in rest ensures Settled(before, known, desired, now, d) {
      assert Settled(before, known, desired, was, d);
    }
  }
}
