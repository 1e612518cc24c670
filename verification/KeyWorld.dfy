// All projects and slots: the operations that span a project (bootstrap, migration,
// cutover), the slot operations guarded by the project's state, and whole runs.
module KeyWorld {
  import opened Prelude
  import opened KeySlots

  const DEFAULT_INTERVAL := 90
  const PREPARATION_WINDOW := 7

  datatype Project = Project(
    autoRotation: bool,           // the project's master switch
    tokenSet: bool,               // api_gateway_token_hash is present
    preparedAt: Option<Time>,
    activatedAt: Option<Time>,
    cutoverAt: Option<Time>,
    readyAt: Option<Time>,
    version: nat)                 // api_keyset_version

  // Rows of both tables; `nextId` is the next identifier the generator will draw.
  datatype World = World(projects: map<nat, Project>, slots: map<nat, Slot>, nextId: nat)

  datatype Request =
    | Register(pid: nat, autoRotation: bool)
    | SetMasterSwitch(pid: nat, autoRotation: bool)
    | CreateSlot(pid: nat, name: string, auto: Option<bool>, interval: Option<int>)
    | Bootstrap(pid: nat)
    | PrepareMigration(pid: nat)
    | ConfirmPrepared(pid: nat, sid: nat, key: nat)
    | StartCutover(pid: nat)
    | ActivatePrepared(pid: nat)
    | MarkReady(pid: nat)
    | AbortMigration(pid: nat)
    | CancelProjectAutomatic(pid: nat)
    | RevealKey(pid: nat, sid: nat, row: nat)
    | BlockSlot(pid: nat, sid: nat)
    | SweepReveals
    | OnSlot(pid: nat, sid: nat, op: SlotOp)

  predicate Live(p: Project) { p.activatedAt.Some? && p.readyAt.Some? }

  function SlotsOf(w: World, pid: nat): set<nat> {
    set sid | sid in w.slots && w.slots[sid].project == pid
  }

  function NamesOf(w: World, sids: set<nat>): set<string>
    requires sids <= w.slots.Keys
  {
    set sid | sid in sids :: w.slots[sid].name
  }

  const DEFAULT_NAMES := {"default-publishable", "default-secret"}

  function Bump(p: Project, n: nat): Project { p.(version := p.version + n) }

  function NewSlot(pid: nat, name: string, auto: bool, interval: Option<int>, key: Key): Slot {
    Slot(pid, name, true, auto, interval, None, [key])
  }

  // ---------------------------------------------------------------------------
  // Project operations

  function CreateSlotIn(w: World, now: Time, pid: nat, name: string, auto: Option<bool>, interval: Option<int>)
    : Result<World, Refusal>
  {
    if interval.Some? && !(MIN_INTERVAL <= interval.value <= MAX_INTERVAL) then Err(BadInterval)
    else if pid !in w.projects then Err(ProjectNotFound)
    else if !Live(w.projects[pid]) then Err(GatewayInactive)
    else
      var automatic := if auto.Some? then auto.value else w.projects[pid].autoRotation;
      if interval.None? && automatic then Err(AutomaticNeedsInterval)
      else if name in NamesOf(w, SlotsOf(w, pid)) then Err(StateConflict)
      else
        var key := NewActive(w.nextId + 1, now, interval, None, Manual);
        Ok(World(w.projects[pid := Bump(w.projects[pid], 1)],
                 w.slots[w.nextId := NewSlot(pid, name, automatic, interval, key)],
                 w.nextId + 2))
  }

  // The two default slots, with the given first key each.
  function WithDefaults(w: World, pid: nat, p: Project, publishable: Key, secret: Key): World {
    var interval := Some(DEFAULT_INTERVAL);
    World(w.projects[pid := p],
          w.slots[w.nextId := NewSlot(pid, "default-publishable", p.autoRotation, interval, publishable)]
                 [w.nextId + 2 := NewSlot(pid, "default-secret", p.autoRotation, interval, secret)],
          w.nextId + 4)
  }

  function BootstrapIn(w: World, now: Time, pid: nat): Result<World, Refusal> {
    if pid !in w.projects then Err(ProjectNotFound)
    else
      var p := w.projects[pid];
      if SlotsOf(w, pid) != {} || p.tokenSet || p.preparedAt.Some? || p.activatedAt.Some? || p.readyAt.Some?
      then Err(AlreadyInitialized)
      else
        Ok(WithDefaults(w, pid,
             Bump(p, 2).(tokenSet := true, preparedAt := Some(now), activatedAt := Some(now), readyAt := Some(now)),
             NewActive(w.nextId + 1, now, Some(DEFAULT_INTERVAL), None, Initial),
             NewActive(w.nextId + 3, now, Some(DEFAULT_INTERVAL), None, Initial)))
  }

  function PrepareMigrationIn(w: World, now: Time, pid: nat): Result<World, Refusal> {
    if pid !in w.projects then Err(ProjectNotFound)
    else
      var p := w.projects[pid];
      if p.activatedAt.Some? then Err(AlreadyActive)
      else if p.preparedAt.Some? || p.tokenSet || SlotsOf(w, pid) != {} then Err(AlreadyPrepared)
      else
        var expiry := Some(now + (PREPARATION_WINDOW + DEFAULT_INTERVAL) * DAY);
        Ok(WithDefaults(w, pid,
             Bump(p, 2).(tokenSet := true, preparedAt := Some(now)),
             NewPending(w.nextId + 1, now, None, expiry, None, Initial, false),
             NewPending(w.nextId + 3, now, None, expiry, None, Initial, false)))
  }

  // The rows of the project's slots joined with their keys, as pairs of slot and position.
  function JoinedRows(w: World, pid: nat): set<(nat, nat)> {
    set sid, i | sid in w.slots && w.slots[sid].project == pid && 0 <= i < |w.slots[sid].keys| :: (sid, i)
  }

  predicate InitialPending(k: Key) { k.status.Pending? && k.trigger.Initial? }

  // Those of them that validation selects and locks.
  function PreparedRows(w: World, pid: nat): set<(nat, nat)> {
    set r | r in JoinedRows(w, pid) && w.slots[r.0].enabled && InitialPending(w.slots[r.0].keys[r.1])
  }

  function RowNames(w: World, rows: set<(nat, nat)>): set<string>
    requires forall r :: r in rows ==> r.0 in w.slots
  {
    set r | r in rows :: w.slots[r.0].name
  }

  function ValidatePrepared(w: World, now: Time, pid: nat, cutoverRequired: bool): Option<Refusal> {
    if pid !in w.projects then Some(ProjectNotFound)
    else
      var p := w.projects[pid];
      var rows := PreparedRows(w, pid);
      if p.preparedAt.None? then Some(NotPrepared)
      else if p.activatedAt.Some? then Some(AlreadyActive)
      else if cutoverRequired && p.cutoverAt.None? then Some(CutoverNotStarted)
      else if RowNames(w, rows) != DEFAULT_NAMES || |rows| != 2 then Some(KeysetInconsistent)
      else if exists r :: r in rows && (w.slots[r.0].keys[r.1].revealedAt.None? || w.slots[r.0].keys[r.1].confirmedAt.None?)
      then Some(NotRevealedOrConfirmed)
      else if exists r :: r in rows && !Unexpired(w.slots[r.0].keys[r.1], now) then Some(KeyExpired)
      else None
  }

  function StartCutoverIn(w: World, now: Time, pid: nat): Result<World, Refusal> {
    if pid !in w.projects then Err(ProjectNotFound)
    else
      var p := w.projects[pid];
      if p.preparedAt.None? then Err(NotPrepared)
      else if p.readyAt.Some? then Err(StateConflict)
      else if p.activatedAt.None? && ValidatePrepared(w, now, pid, false).Some?
      then Err(ValidatePrepared(w, now, pid, false).value)
      else Ok(w.(projects := w.projects[pid := p.(cutoverAt := if p.cutoverAt.Some? then p.cutoverAt else Some(now))]))
  }

  function ActivateRow(k: Key, now: Time, interval: Option<int>): Key {
    k.(status := Active, activateAt := Some(now), activatedAt := Some(now), expiresAt := ExpiryFrom(now, interval))
  }

  function ActivateInitial(s: Slot, now: Time): Slot {
    s.(keys := seq(|s.keys|, i requires 0 <= i < |s.keys| =>
      if s.enabled && InitialPending(s.keys[i]) then ActivateRow(s.keys[i], now, s.interval) else s.keys[i]))
  }

  function ActivatePreparedIn(w: World, now: Time, pid: nat): Result<World, Refusal> {
    var refusal := ValidatePrepared(w, now, pid, true);
    if refusal.Some? then Err(refusal.value)
    else
      Ok(w.(projects := w.projects[pid := Bump(w.projects[pid], 1).(activatedAt := Some(now))],
            slots := map sid | sid in w.slots ::
              if w.slots[sid].project == pid then ActivateInitial(w.slots[sid], now) else w.slots[sid]))
  }

  function MarkReadyIn(w: World, now: Time, pid: nat): Result<World, Refusal> {
    if pid !in w.projects then Err(ProjectNotFound)
    else
      var p := w.projects[pid];
      if p.activatedAt.None? || p.cutoverAt.None? || p.readyAt.Some? then Err(StateConflict)
      else Ok(w.(projects := w.projects[pid := p.(readyAt := Some(now))]))
  }

  function AbortMigrationIn(w: World, now: Time, pid: nat): Result<World, Refusal> {
    if pid !in w.projects then Err(ProjectNotFound)
    else
      var p := w.projects[pid];
      var rows := JoinedRows(w, pid);
      if p.preparedAt.None? then Err(NotPrepared)
      else if p.activatedAt.Some? || p.cutoverAt.Some? || p.readyAt.Some? then Err(CutoverStarted)
      else if |rows| != 2 || RowNames(w, rows) != DEFAULT_NAMES
              || (exists r :: r in rows && !InitialPending(w.slots[r.0].keys[r.1]))
      then Err(KeysetInconsistent)
      else Ok(w.(projects := w.projects[pid := Bump(p, 1).(tokenSet := false, preparedAt := None)],
                 slots := map sid | sid in w.slots && w.slots[sid].project != pid :: w.slots[sid]))
  }

  // Refuses (rather than succeeding) when there is nothing to cancel: the service
  // returns no new version then.
  function CancelProjectAutomaticIn(w: World, now: Time, pid: nat): Result<World, Refusal> {
    if pid !in w.projects then Err(ProjectNotFound)
    else if forall sid :: sid in SlotsOf(w, pid) ==> CancelAutomatic(w.slots[sid], now) == w.slots[sid]
    then Err(NoPendingKey)
    else Ok(w.(projects := w.projects[pid := Bump(w.projects[pid], 1)],
               slots := map sid | sid in w.slots ::
                 if w.slots[sid].project == pid then CancelAutomatic(w.slots[sid], now) else w.slots[sid]))
  }

  // ---------------------------------------------------------------------------
  // Slot operations

  predicate Reaches(w: World, pid: nat, sid: nat) {
    && pid in w.projects && sid in w.slots
    && w.slots[sid].project == pid && w.slots[sid].enabled
  }

  function Store(w: World, pid: nat, sid: nat, s: Result<Slot, Refusal>): Result<World, Refusal>
    requires pid in w.projects
  {
    match s
    case Err(e) => Err(e)
    case Ok(slot) => Ok(World(w.projects[pid := Bump(w.projects[pid], 1)], w.slots[sid := slot], w.nextId + 1))
  }

  function OnSlotIn(w: World, now: Time, pid: nat, sid: nat, op: SlotOp): Result<World, Refusal> {
    if op.DoPrepareRotation? && op.activateAt <= now then Err(ActivateInPast)
    else if !Reaches(w, pid, sid) || !Live(w.projects[pid]) then Err(SlotNotFound)
    else Store(w, pid, sid, Perform(w.slots[sid], op, now, w.nextId))
  }

  function ConfirmPreparedIn(w: World, now: Time, pid: nat, sid: nat, key: nat): Result<World, Refusal> {
    if !Reaches(w, pid, sid) then Err(KeyNotFound)
    else
      var p := w.projects[pid];
      if p.preparedAt.None? || p.activatedAt.Some? || p.cutoverAt.Some? then Err(KeyNotFound)
      else Store(w, pid, sid, Confirm(w.slots[sid], now, key, true))
  }

  function RevealKeyIn(w: World, now: Time, pid: nat, sid: nat, row: nat): Result<World, Refusal> {
    if sid !in w.slots || w.slots[sid].project != pid || row >= |w.slots[sid].keys| then Err(KeyNotFound)
    else
      match ClaimReveal(w.slots[sid], now, row)
      case Err(e) => Err(e)
      case Ok(s) => Ok(w.(slots := w.slots[sid := s]))
  }

  // The scheduler's mark on a slot whose schedule went wrong.
  function BlockSlotIn(w: World, now: Time, pid: nat, sid: nat): Result<World, Refusal> {
    if !Reaches(w, pid, sid) || !Live(w.projects[pid]) then Err(SlotNotFound)
    else Ok(w.(slots := w.slots[sid := w.slots[sid].(blockedAt := Some(now))]))
  }

  function SweepRevealsIn(w: World, now: Time): World {
    w.(slots := map sid | sid in w.slots :: PurgeReveals(w.slots[sid], now))
  }

  // One request, or one step of the scheduler, as one transaction.
  function Apply(w: World, r: Request, now: Time): Result<World, Refusal> {
    match r
    case Register(pid, auto) =>
      if pid in w.projects then Err(StateConflict)
      else Ok(w.(projects := w.projects[pid := Project(auto, false, None, None, None, None, 0)]))
    case SetMasterSwitch(pid, auto) =>
      if pid !in w.projects then Err(ProjectNotFound)
      else Ok(w.(projects := w.projects[pid := w.projects[pid].(autoRotation := auto)]))
    case CreateSlot(pid, name, auto, interval) => CreateSlotIn(w, now, pid, name, auto, interval)
    case Bootstrap(pid) => BootstrapIn(w, now, pid)
    case PrepareMigration(pid) => PrepareMigrationIn(w, now, pid)
    case ConfirmPrepared(pid, sid, key) => ConfirmPreparedIn(w, now, pid, sid, key)
    case StartCutover(pid) => StartCutoverIn(w, now, pid)
    case ActivatePrepared(pid) => ActivatePreparedIn(w, now, pid)
    case MarkReady(pid) => MarkReadyIn(w, now, pid)
    case AbortMigration(pid) => AbortMigrationIn(w, now, pid)
    case CancelProjectAutomatic(pid) => CancelProjectAutomaticIn(w, now, pid)
    case RevealKey(pid, sid, row) => RevealKeyIn(w, now, pid, sid, row)
    case BlockSlot(pid, sid) => BlockSlotIn(w, now, pid, sid)
    case SweepReveals => Ok(SweepRevealsIn(w, now))
    case OnSlot(pid, sid, op) => OnSlotIn(w, now, pid, sid, op)
  }

  // A refused request rolls its transaction back.
  function Exec(w: World, r: Request, now: Time): World {
    match Apply(w, r, now)
    case Ok(w') => w'
    case Err(_) => w
  }
}
