/**
  The durable tables behind the monitoring runtime (internal/store). Each transaction is one function
  from tables to tables; a row's ID is its position.
 */
module StoreTables {
  import opened MonitoringTypes

  datatype NotificationEvent = DownEvent | UpEvent
  datatype NotificationState = Pending | Processing | Retrying | Delivered | Superseded

  /** The alert body: how many of the assigned probes were down. */
  datatype Payload = Payload(check: CheckId, down: bool, probesDown: nat, probesTotal: nat)

  datatype Incident = Incident(check: CheckId, startedAt: Time, resolvedAt: Option<Time>)

  datatype Notification = Notification(
    incident: nat,
    event: NotificationEvent,
    payload: Payload,
    state: NotificationState,
    attempts: nat,
    lastAttemptAt: Option<Time>,
    nextAttemptAt: Option<Time>,
    deliveredAt: Option<Time>)

  /**
    checks tells the active from the soft-deleted ones; probes holds the last-seen time of every probe
    that is not revoked; rows are the compact per-(check, probe) states.
   */
  datatype Db = Db(
    checks: map<CheckId, bool>,
    probes: map<ProbeId, Option<Time>>,
    rows: map<(CheckId, ProbeId), CheckExecState>,
    incidents: seq<Incident>,
    notifications: seq<Notification>)

  const EMPTY_DB := Db(map[], map[], map[], [], [])

  predicate Active(db: Db, c: CheckId) {
    c in db.checks && db.checks[c]
  }

  predicate OpenAt(incidents: seq<Incident>, i: nat, c: CheckId)
    requires i < |incidents|
  {
    incidents[i].check == c && incidents[i].resolvedAt == None
  }

  /** The ID of an unresolved incident of c. */
  function FindOpen(incidents: seq<Incident>, c: CheckId): (id: Option<nat>)
    ensures id.Some? ==> id.value < |incidents| && OpenAt(incidents, id.value, c)
    ensures id.None? ==> forall i | 0 <= i < |incidents| :: !OpenAt(incidents, i, c)
  {
    if incidents == [] then None
    else
      var n := |incidents| - 1;
      if OpenAt(incidents, n, c) then Some(n)
      else
        var earlier := FindOpen(incidents[..n], c);
        assert earlier.None? ==> forall i | 0 <= i < n :: incidents[..n][i] == incidents[i] && !OpenAt(incidents[..n], i, c);
        earlier
  }

  predicate HasOpen(db: Db, c: CheckId) {
    FindOpen(db.incidents, c).Some?
  }

  predicate Terminal(s: NotificationState) {
    s == Delivered || s == Superseded
  }

  // ---- Current-state rows -------------------------------------------------------------------

  datatype CheckStateWrite = CheckStateWrite(check: CheckId, probe: ProbeId, child: CheckExecState)

  /** normalizeCheckStateWrite: rejects incomplete rows and replaces zero times. */
  function Normalized(w: CheckStateWrite, now: Time): Option<CheckExecState> {
    if w.check == NoCheck || w.probe == NoProbe then None
    else if w.child.lastOutcome == None && w.child.state != Missing then None
    else
      var at := if w.child.lastResultAt == ZERO_TIME then now else w.child.lastResultAt;
      Some(w.child.(lastResultAt := at, expiresAt := if w.child.expiresAt == ZERO_TIME then at else w.child.expiresAt))
  }

  function Upserted(db: Db, w: CheckStateWrite, now: Time): Db {
    match Normalized(w, now)
    case None => db
    case Some(row) => db.(rows := db.rows[(w.check, w.probe) := row])
  }

  // ---- Incidents ------------------------------------------------------------------------------

  /** insertIncidentNotification: nothing without a request, and nothing on a duplicate key. */
  function WithNotification(ns: seq<Notification>, incident: nat, event: NotificationEvent,
                            request: Option<Payload>, now: Time): seq<Notification>
  {
    if request == None || exists k | 0 <= k < |ns| :: ns[k].incident == incident && ns[k].event == event then ns
    else ns + [Notification(incident, event, request.value, NotificationState.Pending, 0, None, Some(now), None)]
  }

  /** Supersedes a notification that is not terminal yet. */
  function Supersede(n: Notification): Notification {
    if Terminal(n.state) then n else n.(state := Superseded, nextAttemptAt := None)
  }

  /** Supersedes the notifications of the given incidents and events. */
  function SupersedeAll(ns: seq<Notification>, ids: set<nat>, events: set<NotificationEvent>): (out: seq<Notification>)
    ensures |out| == |ns|
    ensures forall k | 0 <= k < |ns| ::
              out[k] == if ns[k].incident in ids && ns[k].event in events then Supersede(ns[k]) else ns[k]
  {
    seq(|ns|, k requires 0 <= k < |ns| =>
      if ns[k].incident in ids && ns[k].event in events then Supersede(ns[k]) else ns[k])
  }

  /** Opens an incident unless the check is gone or already has an unresolved one. */
  function Opened(db: Db, c: CheckId, request: Option<Payload>, now: Time): Db {
    if !Active(db, c) || HasOpen(db, c) then db
    else
      db.(incidents := db.incidents + [Incident(c, now, None)],
          notifications := WithNotification(db.notifications, |db.incidents|, DownEvent, request, now))
  }

  /** Resolves the unresolved incident, if any, and supersedes its down notification. */
  function Resolved(db: Db, c: CheckId, request: Option<Payload>, now: Time): Db {
    match FindOpen(db.incidents, c)
    case None => db
    case Some(id) =>
      var superseded := SupersedeAll(db.notifications, {id}, {DownEvent});
      db.(incidents := db.incidents[id := db.incidents[id].(resolvedAt := Some(now))],
          notifications := WithNotification(superseded, id, UpEvent, request, now))
  }

  /** DeleteCheck: supersede, resolve, drop the rows, soft-delete; a no-op on a check that is not active. */
  function Deleted(db: Db, c: CheckId, now: Time): Db {
    if !Active(db, c) then db
    else
      var ids := set i: nat | i < |db.incidents| && db.incidents[i].check == c;
      db.(notifications := SupersedeAll(db.notifications, ids, {DownEvent, UpEvent}),
          incidents := ResolveAll(db.incidents, c, now),
          rows := map k | k in db.rows && k.0 != c :: db.rows[k],
          checks := db.checks[c := false])
  }

  function ResolveAll(incidents: seq<Incident>, c: CheckId, now: Time): (out: seq<Incident>)
    ensures |out| == |incidents|
    ensures forall i | 0 <= i < |out| ::
              out[i] == if OpenAt(incidents, i, c) then incidents[i].(resolvedAt := Some(now)) else incidents[i]
  {
    seq(|incidents|, i requires 0 <= i < |incidents| =>
      if OpenAt(incidents, i, c) then incidents[i].(resolvedAt := Some(now)) else incidents[i])
  }

  // ---- Notification delivery --------------------------------------------------------------------

  /** The rows a worker may claim: due, or claimed so long ago that the worker must have died. */
  predicate Due(db: Db, k: nat, now: Time, staleBefore: Time)
    requires k < |db.notifications|
  {
    var n := db.notifications[k];
    && (|| ((n.state == NotificationState.Pending || n.state == Retrying) && n.nextAttemptAt.Some? && n.nextAttemptAt.value <= now)
        || (n.state == Processing && n.lastAttemptAt.Some? && n.lastAttemptAt.value <= staleBefore))
    && n.incident < |db.incidents|
    && db.incidents[n.incident].check in db.checks
    && !(n.event == DownEvent && db.incidents[n.incident].resolvedAt.Some?)
  }

  function ClaimOne(n: Notification, now: Time): Notification {
    n.(state := Processing, attempts := n.attempts + 1, lastAttemptAt := Some(now))
  }

  /** Claims those picked rows that are due. */
  function Claimed(db: Db, now: Time, staleBefore: Time, picked: set<nat>): Db {
    db.(notifications := seq(|db.notifications|, k requires 0 <= k < |db.notifications| =>
      if k in picked && Due(db, k, now, staleBefore) then ClaimOne(db.notifications[k], now) else db.notifications[k]))
  }

  function MarkedDelivered(db: Db, id: nat, at: Time): Db {
    if id < |db.notifications| && db.notifications[id].state == Processing then
      db.(notifications := db.notifications[id :=
        db.notifications[id].(state := Delivered, deliveredAt := Some(at), nextAttemptAt := None)])
    else db
  }

  /** Retries later, unless delivered; a down alert of a resolved incident is superseded instead. */
  function MarkedRetry(db: Db, id: nat, nextAttemptAt: Time): Db {
    if id < |db.notifications| && db.notifications[id].incident < |db.incidents| && db.notifications[id].state != Delivered then
      var n := db.notifications[id];
      var n' :=
        if n.state == Superseded || (n.event == DownEvent && db.incidents[n.incident].resolvedAt.Some?) then
          n.(state := Superseded, nextAttemptAt := None)
        else n.(state := Retrying, nextAttemptAt := Some(nextAttemptAt));
      db.(notifications := db.notifications[id := n'])
    else db
  }
}
