// One consumer slot of a project: the rows that project_api_key_slots and
// project_api_keys hold for it, the lifecycle operations on those rows, and the
// three queries that decide which key clients may use.
//
// Timestamps are microseconds on the database clock.  Rows appear in insertion
// order, and no operation removes a single key row.
module KeySlots {
  import opened Prelude

  type Time = int

  const DAY: Time := 86_400_000_000
  const MIN_INTERVAL := 1
  const MAX_INTERVAL := 3650

  datatype KeyStatus = Pending | Active | Revoked

  datatype Trigger = Initial | Manual | Automatic

  datatype Key = Key(
    id: nat,
    status: KeyStatus,
    activateAt: Option<Time>,
    expiresAt: Option<Time>,
    activatedAt: Option<Time>,
    revokedAt: Option<Time>,
    revealedAt: Option<Time>,
    confirmedAt: Option<Time>,
    predecessor: Option<nat>,
    trigger: Trigger,
    revealStored: bool)           // a row of project_api_key_reveals exists

  datatype Slot = Slot(
    project: nat,
    name: string,
    enabled: bool,
    autoRotation: bool,
    interval: Option<int>,
    blockedAt: Option<Time>,
    keys: seq<Key>)

  datatype Refusal =
    | SlotNotFound | KeyNotFound | NoActiveKey | NoPendingKey | PendingExists
    | NotConfirmed | NotDue | KeyExpired | ActivateInPast | ActivateTooLate
    | NotRevealed | AlreadyConfirmed | PendingIsEffective
    | PolicyEmpty | BadInterval | AutomaticNeedsInterval
    | ProjectNotFound | AlreadyInitialized | GatewayInactive | AlreadyActive
    | AlreadyPrepared | NotPrepared | CutoverNotStarted | CutoverStarted
    | KeysetInconsistent | NotRevealedOrConfirmed | StateConflict

  // ---------------------------------------------------------------------------
  // Tests on one row

  predicate Due(k: Key, t: Time) { k.activateAt.Some? && k.activateAt.value <= t }

  predicate Unexpired(k: Key, t: Time) { k.expiresAt.None? || k.expiresAt.value > t }

  // A pending key that clients may already use: due, and confirmed as installed.
  predicate EffectivePending(k: Key, t: Time) {
    k.status.Pending? && Due(k, t) && k.confirmedAt.Some?
  }

  predicate SupersededAt(keys: seq<Key>, t: Time) {
    exists j :: 0 <= j < |keys| && EffectivePending(keys[j], t)
  }

  // ---------------------------------------------------------------------------
  // The three queries

  // The authorizer's WHERE clause (the project is checked before it runs).
  predicate Accepted(s: Slot, i: nat, t: Time)
    requires i < |s.keys|
  {
    var k := s.keys[i];
    && s.enabled
    && Unexpired(k, t)
    && (|| (k.status.Active? && k.activatedAt.Some? && !SupersededAt(s.keys, t))
        || (k.status.Pending? && Due(k, t) && k.confirmedAt.Some?))
  }

  // The currently_accepted column of the administrator's listing.
  predicate ShownAsAccepted(s: Slot, i: nat, t: Time)
    requires i < |s.keys|
  {
    var k := s.keys[i];
    if s.enabled && k.status.Pending? && Due(k, t) && k.confirmedAt.Some? && Unexpired(k, t) then true
    else if s.enabled && k.status.Active? && Unexpired(k, t) && !SupersededAt(s.keys, t) then true
    else false
  }

  // The effective key of the public discovery view (its project is checked too).
  predicate Offered(s: Slot, i: nat, t: Time)
    requires i < |s.keys|
  {
    var k := s.keys[i];
    && Unexpired(k, t)
    && s.enabled
    && (|| (k.status.Pending? && Due(k, t) && k.confirmedAt.Some?)
        || (k.status.Active? && k.activatedAt.Some? && !SupersededAt(s.keys, t)))
  }

  // ---------------------------------------------------------------------------
  // Row edits and new rows

  // Revocation also deletes the stored one-time reveal.
  function Revoke(k: Key, now: Time): Key {
    k.(status := Revoked, revokedAt := Some(now), revealStored := false)
  }

  function ExpiryFrom(start: Time, interval: Option<int>): Option<Time> {
    if interval.None? then None else Some(start + interval.value * DAY)
  }

  function NewActive(id: nat, now: Time, interval: Option<int>, predecessor: Option<nat>, trigger: Trigger): Key {
    Key(id, Active, None, ExpiryFrom(now, interval), Some(now), None, None, None, predecessor, trigger, true)
  }

  function NewPending(id: nat, now: Time, activateAt: Option<Time>, expiresAt: Option<Time>,
                      predecessor: Option<nat>, trigger: Trigger, inline: bool): Key {
    Key(id, Pending, activateAt, expiresAt, None, None, if inline then Some(now) else None, None, predecessor, trigger, true)
  }

  // The last row with the given status.
  function Find(keys: seq<Key>, status: KeyStatus): (r: Option<nat>)
    ensures r.Some? ==> r.value < |keys| && keys[r.value].status == status
    ensures r.Some? ==> forall j :: r.value < j < |keys| ==> keys[j].status != status
    ensures r.None? ==> forall j :: 0 <= j < |keys| ==> keys[j].status != status
  {
    if keys == [] then None
    else if keys[|keys| - 1].status == status then Some(|keys| - 1)
    else Find(keys[..|keys| - 1], status)
  }

  // Revokes the row with the given status, if there is one.
  function Cut(keys: seq<Key>, status: KeyStatus, now: Time): seq<Key> {
    var i := Find(keys, status);
    if i.None? then keys else keys[i.value := Revoke(keys[i.value], now)]
  }

  // ---------------------------------------------------------------------------
  // Lifecycle operations on an enabled slot of a project whose gateway is ready

  function RotateNow(s: Slot, now: Time, id: nat): Result<Slot, Refusal> {
    var p := Find(s.keys, Pending);
    var a := Find(s.keys, Active);
    if p.Some? && !EffectivePending(s.keys[p.value], now) then Err(PendingExists)
    else if a.None? then Err(NoActiveKey)
    else
      var current := s.keys[if p.Some? then p.value else a.value];
      Ok(s.(blockedAt := None,
            keys := Cut(Cut(s.keys, Pending, now), Active, now)
                    + [NewActive(id, now, s.interval, Some(current.id), Manual)]))
  }

  function PrepareRotation(s: Slot, now: Time, id: nat, activateAt: Time, inline: bool, trigger: Trigger)
    : Result<Slot, Refusal>
  {
    var a := Find(s.keys, Active);
    if Find(s.keys, Pending).Some? then Err(PendingExists)
    else if a.None? then Err(NoActiveKey)
    else if s.keys[a.value].expiresAt.Some? && activateAt > s.keys[a.value].expiresAt.value then Err(ActivateTooLate)
    else
      var issued := NewPending(id, now, Some(activateAt), ExpiryFrom(activateAt, s.interval),
                              Some(s.keys[a.value].id), trigger, inline);
      Ok(s.(blockedAt := None, keys := s.keys + [issued]))
  }

  function ActivatePending(s: Slot, now: Time): Result<Slot, Refusal> {
    var p := Find(s.keys, Pending);
    var a := Find(s.keys, Active);
    if p.None? then Err(NoPendingKey)
    else
      var k := s.keys[p.value];
      if k.confirmedAt.None? then Err(NotConfirmed)
      else if !Due(k, now) then Err(NotDue)
      else if !Unexpired(k, now) then Err(KeyExpired)
      else if a.None? then Err(NoActiveKey)
      else
        Ok(s.(keys := Cut(s.keys, Active, now)[p.value := k.(status := Active, activatedAt := Some(now))]))
  }

  // Shared by the ready gateway and by a prepared migration.
  function Confirm(s: Slot, now: Time, id: nat, initialOnly: bool): Result<Slot, Refusal> {
    var p := Find(s.keys, Pending);
    if p.None? || s.keys[p.value].id != id || (initialOnly && !s.keys[p.value].trigger.Initial?) then Err(KeyNotFound)
    else
      var k := s.keys[p.value];
      if k.revealedAt.None? then Err(NotRevealed)
      else if k.confirmedAt.Some? then Err(AlreadyConfirmed)
      else if !Unexpired(k, now) then Err(KeyExpired)
      else Ok(s.(blockedAt := None, keys := s.keys[p.value := k.(confirmedAt := Some(now))]))
  }

  function CancelPending(s: Slot, now: Time): Result<Slot, Refusal> {
    var p := Find(s.keys, Pending);
    if p.None? then Err(NoPendingKey)
    else if EffectivePending(s.keys[p.value], now) then Err(PendingIsEffective)
    else Ok(s.(blockedAt := None, keys := Cut(s.keys, Pending, now)))
  }

  function Disable(s: Slot, now: Time): Slot {
    s.(enabled := false,
       keys := seq(|s.keys|, i requires 0 <= i < |s.keys| =>
         if s.keys[i].status.Revoked? then s.keys[i].(revealStored := false) else Revoke(s.keys[i], now)))
  }

  // Cancels a machine-made replacement that clients cannot be using yet.
  function CancelAutomatic(s: Slot, now: Time): Slot {
    var p := Find(s.keys, Pending);
    if p.Some? && s.keys[p.value].trigger.Automatic? && !EffectivePending(s.keys[p.value], now)
    then s.(keys := Cut(s.keys, Pending, now))
    else s
  }

  // A new interval restarts the lifetime of the active key; it revives no expired key.
  function RestartLifetime(s: Slot, now: Time, interval: Option<int>): Result<Slot, Refusal> {
    var a := Find(s.keys, Active);
    if interval == s.interval then Ok(s)
    else if Find(s.keys, Pending).Some? then Err(PendingExists)
    else if a.None? then Err(NoActiveKey)
    else if !Unexpired(s.keys[a.value], now) then Err(KeyExpired)
    else Ok(s.(keys := s.keys[a.value := s.keys[a.value].(expiresAt := ExpiryFrom(now, interval))]))
  }

  // `interval` is None when the request leaves the interval out, and Some(None)
  // when it asks for keys that do not expire.
  function UpdatePolicy(s: Slot, now: Time, auto: Option<bool>, interval: Option<Option<int>>, services: bool)
    : Result<Slot, Refusal>
  {
    if auto.None? && interval.None? && !services then Err(PolicyEmpty)
    else if interval.Some? && interval.value.Some? && !(MIN_INTERVAL <= interval.value.value <= MAX_INTERVAL)
    then Err(BadInterval)
    else
      var newInterval := if interval.Some? then interval.value else s.interval;
      var newAuto := if auto.Some? then auto.value else s.autoRotation;
      if newInterval.None? && newAuto then Err(AutomaticNeedsInterval)
      else
        var s1 := if auto == Some(false) then CancelAutomatic(s, now) else s;
        Retune(s1, now, newAuto, newInterval)
  }

  // The new policy takes effect, and lifts the block of a schedule it replaces.
  function Retune(s: Slot, now: Time, auto: bool, interval: Option<int>): Result<Slot, Refusal> {
    match RestartLifetime(s, now, interval)
    case Err(e) => Err(e)
    case Ok(s') =>
      Ok(s'.(autoRotation := auto, interval := interval, blockedAt := if auto || interval.None? then None else s.blockedAt))
  }

  function ClaimReveal(s: Slot, now: Time, i: nat): Result<Slot, Refusal>
    requires i < |s.keys|
  {
    var k := s.keys[i];
    if !k.revealStored || k.status.Revoked? then Err(KeyNotFound)
    else if k.revealedAt.Some? then Ok(s)
    else Ok(s.(keys := s.keys[i := k.(revealedAt := Some(now))]))
  }

  // The scheduler's sweep: nothing is stored for keys that are revoked or expired.
  function PurgeReveals(s: Slot, now: Time): Slot {
    s.(keys := seq(|s.keys|, i requires 0 <= i < |s.keys| =>
      if s.keys[i].status.Revoked? || !Unexpired(s.keys[i], now) then s.keys[i].(revealStored := false) else s.keys[i]))
  }

  // The operations that the service accepts for an enabled slot once the project's
  // gateway is ready.
  datatype SlotOp =
    | DoRotateNow
    | DoPrepareRotation(activateAt: Time, inline: bool, trigger: Trigger)
    | DoActivatePending
    | DoConfirm(id: nat)
    | DoCancelPending
    | DoDisable
    | DoUpdatePolicy(auto: Option<bool>, interval: Option<Option<int>>, services: bool)

  function Perform(s: Slot, op: SlotOp, now: Time, id: nat): Result<Slot, Refusal> {
    match op
    case DoRotateNow => RotateNow(s, now, id)
    case DoPrepareRotation(at, inline, trigger) =>
      if at <= now then Err(ActivateInPast) else PrepareRotation(s, now, id, at, inline, trigger)
    case DoActivatePending => ActivatePending(s, now)
    case DoConfirm(k) => Confirm(s, now, k, false)
    case DoCancelPending => CancelPending(s, now)
    case DoDisable => Ok(Disable(s, now))
    case DoUpdatePolicy(auto, interval, services) => UpdatePolicy(s, now, auto, interval, services)
  }
}
