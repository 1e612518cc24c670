// Safety of the key lifecycle over every run of requests and clock ticks.
module KeyRuns {
  import opened Prelude
  import opened KeySlots
  import opened KeySlotProofs
  import opened KeyVisibility
  import opened KeyWorld

  // ---------------------------------------------------------------------------
  // The invariant

  // A slot of a prepared migration: one initial key that nothing accepts yet.
  ghost predicate Staged(s: Slot) {
    && PolicyOk(s) && s.enabled && |s.keys| == 1
    && var k := s.keys[0];
       && k.status.Pending? && k.trigger.Initial? && k.predecessor.None?
       && k.activateAt.None? && k.activatedAt.None? && k.revokedAt.None?
  }

  ghost predicate SlotOk(p: Project, s: Slot, now: Time) {
    if p.activatedAt.Some? then SlotInv(s, now)
    else Staged(s) && (s.keys[0].confirmedAt.Some? ==> s.keys[0].confirmedAt.value <= now)
  }

  ghost predicate Owned(w: World, sid: nat)
    requires sid in w.slots
  {
    && sid < w.nextId
    && w.slots[sid].project in w.projects
    && IdsBelow(w.slots[sid].keys, w.nextId)
  }

  ghost predicate WorldInv(w: World, now: Time) {
    && (forall pid :: pid in w.projects && w.projects[pid].readyAt.Some? ==> w.projects[pid].activatedAt.Some?)
    && (forall sid :: sid in w.slots ==> Owned(w, sid) && SlotOk(w.projects[w.slots[sid].project], w.slots[sid], now))
  }

  // ---------------------------------------------------------------------------
  // What clients see

  // The authorizer: the project's opaque keys are active and its slot query matches.
  predicate Admits(w: World, sid: nat, row: nat, t: Time) {
    && sid in w.slots
    && w.slots[sid].project in w.projects
    && w.projects[w.slots[sid].project].activatedAt.Some?
    && row < |w.slots[sid].keys|
    && Accepted(w.slots[sid], row, t)
  }

  // The key that public discovery hands out, once the gateway is ready.
  predicate Discovered(w: World, sid: nat, row: nat, t: Time) {
    && sid in w.slots
    && w.slots[sid].project in w.projects
    && Live(w.projects[w.slots[sid].project])
    && row < |w.slots[sid].keys|
    && Offered(w.slots[sid], row, t)
  }

  ghost predicate Started(w: World, sid: nat) {
    && sid in w.slots
    && w.slots[sid].project in w.projects
    && w.projects[w.slots[sid].project].activatedAt.Some?
  }

  // Had its time and is no longer admitted.
  ghost predicate Spent(w: World, sid: nat, row: nat, t: Time) {
    && Started(w, sid)
    && row < |w.slots[sid].keys|
    && Retired(w.slots[sid], row, t)
  }

  // What one request does to a slot whose project is active.
  ghost predicate Preserves(w: World, w': World, sid: nat, now: Time) {
    Started(w, sid) ==> Started(w', sid) && Keeps(w.slots[sid], w'.slots[sid], now)
  }

  ghost predicate AllPreserved(w: World, w': World, now: Time) {
    forall sid :: sid in w.slots ==> Preserves(w, w', sid, now)
  }

  // ---------------------------------------------------------------------------
  // One request


  lemma WorldLater(w: World, now: Time, later: Time)
    requires WorldInv(w, now) && now <= later
    ensures WorldInv(w, later)
  {
  }

  // The change touches one project's columns, and no slot.
  lemma ColumnsOnly(w: World, pid: nat, p: Project, now: Time)
    requires WorldInv(w, now)
    requires p.readyAt.Some? ==> p.activatedAt.Some?
    requires pid in w.projects ==> p.activatedAt.Some? == w.projects[pid].activatedAt.Some?
    ensures WorldInv(w.(projects := w.projects[pid := p]), now)
    ensures AllPreserved(w, w.(projects := w.projects[pid := p]), now)
  {
  }

  // The change stores one slot of a project whose activation stays as it is.
  lemma OneSlot(w: World, pid: nat, p: Project, sid: nat, s: Slot, next: nat, now: Time)
    requires WorldInv(w, now) && pid in w.projects
    requires p.readyAt.Some? ==> p.activatedAt.Some?
    requires p.activatedAt.Some? == w.projects[pid].activatedAt.Some?
    requires s.project == pid && w.nextId <= next && sid < next && IdsBelow(s.keys, next)
    requires SlotOk(p, s, now)
    requires sid in w.slots ==> w.slots[sid].project == pid && (p.activatedAt.Some? ==> Keeps(w.slots[sid], s, now))
    ensures WorldInv(World(w.projects[pid := p], w.slots[sid := s], next), now)
    ensures AllPreserved(w, World(w.projects[pid := p], w.slots[sid := s], next), now)
  {
    var w' := World(w.projects[pid := p], w.slots[sid := s], next);
    forall x | x in w'.slots
      ensures Owned(w', x) && SlotOk(w'.projects[w'.slots[x].project], w'.slots[x], now)
    {
      if x != sid { assert Owned(w, x); }
    }
    forall x | x in w.slots
      ensures Preserves(w, w', x, now)
    {
      if Started(w, x) && x != sid { KeepsItself(w.slots[x], now); }
    }
  }

  lemma OnSlotStep(w: World, now: Time, pid: nat, sid: nat, op: SlotOp)
    requires WorldInv(w, now) && OnSlotIn(w, now, pid, sid, op).Ok?
    ensures WorldInv(OnSlotIn(w, now, pid, sid, op).value, now)
    ensures AllPreserved(w, OnSlotIn(w, now, pid, sid, op).value, now)
  {
    assert Owned(w, sid);
    assert SlotOk(w.projects[pid], w.slots[sid], now);
    hide SlotInv, Keeps, IdsBelow, AllPreserved, Perform;
    PerformFacts(w.slots[sid], op, now, w.nextId);
    hide WorldInv, SlotOk;
    StoreStep(w, now, pid, sid, Perform(w.slots[sid], op, now, w.nextId).value);
  }

  lemma PerformFacts(s: Slot, op: SlotOp, now: Time, id: nat)
    requires SlotInv(s, now) && s.enabled && IdsBelow(s.keys, id)
    requires Perform(s, op, now, id).Ok?
    ensures var s' := Perform(s, op, now, id).value;
      SlotInv(s', now) && Keeps(s, s', now) && IdsBelow(s'.keys, id + 1) && s'.project == s.project
  {
    PerformInv(s, op, now, id);
    PerformRows(s, op, now, id);
    GrownIds(s.keys, Perform(s, op, now, id).value.keys, id);
  }

  lemma ActiveOk(w: World, pid: nat, s: Slot, now: Time)
    requires pid in w.projects && Live(w.projects[pid]) && SlotInv(s, now)
    ensures SlotOk(Bump(w.projects[pid], 1), s, now)
  {
  }

  lemma StoreStep(w: World, now: Time, pid: nat, sid: nat, s: Slot)
    requires WorldInv(w, now) && Reaches(w, pid, sid) && Live(w.projects[pid])
    requires SlotInv(s, now) && Keeps(w.slots[sid], s, now)
    requires IdsBelow(s.keys, w.nextId + 1) && s.project == pid
    ensures WorldInv(Store(w, pid, sid, Ok(s)).value, now)
    ensures AllPreserved(w, Store(w, pid, sid, Ok(s)).value, now)
  {
    hide SlotInv, SlotOk, Keeps, IdsBelow, AllPreserved;
    assert Owned(w, sid);
    ActiveOk(w, pid, s, now);
    hide WorldInv;
    OneSlot(w, pid, Bump(w.projects[pid], 1), sid, s, w.nextId + 1, now);
  }

  lemma ConfirmPreparedStep(w: World, now: Time, pid: nat, sid: nat, key: nat)
    requires WorldInv(w, now) && ConfirmPreparedIn(w, now, pid, sid, key).Ok?
    ensures WorldInv(ConfirmPreparedIn(w, now, pid, sid, key).value, now)
    ensures AllPreserved(w, ConfirmPreparedIn(w, now, pid, sid, key).value, now)
  {
    assert Owned(w, sid);
    OneSlot(w, pid, Bump(w.projects[pid], 1), sid, Confirm(w.slots[sid], now, key, true).value, w.nextId + 1, now);
  }

  lemma RevealKeyStep(w: World, now: Time, pid: nat, sid: nat, row: nat)
    requires WorldInv(w, now) && RevealKeyIn(w, now, pid, sid, row).Ok?
    ensures WorldInv(RevealKeyIn(w, now, pid, sid, row).value, now)
    ensures AllPreserved(w, RevealKeyIn(w, now, pid, sid, row).value, now)
  {
    hide ClaimReveal, SlotOk, Keeps, IdsBelow;
    assert Owned(w, sid);
    RevealFacts(w.projects[pid], w.slots[sid], now, row, w.nextId);
    OneSlot(w, pid, w.projects[pid], sid, ClaimReveal(w.slots[sid], now, row).value, w.nextId, now);
    assert w.projects[pid := w.projects[pid]] == w.projects;
  }

  lemma RevealFacts(p: Project, s: Slot, now: Time, row: nat, id: nat)
    requires SlotOk(p, s, now) && row < |s.keys| && ClaimReveal(s, now, row).Ok? && IdsBelow(s.keys, id)
    ensures IdsBelow(ClaimReveal(s, now, row).value.keys, id) && ClaimReveal(s, now, row).value.project == s.project
    ensures SlotOk(p, ClaimReveal(s, now, row).value, now)
    ensures p.activatedAt.Some? ==> Keeps(s, ClaimReveal(s, now, row).value, now)
  {
    if p.activatedAt.Some? {
      ClaimRevealInv(s, now, row);
      ClaimRevealEdits(s, now, row);
      EditedKeeps(s, ClaimReveal(s, now, row).value, now);
    }
  }

  lemma BlockSlotStep(w: World, now: Time, pid: nat, sid: nat)
    requires WorldInv(w, now) && BlockSlotIn(w, now, pid, sid).Ok?
    ensures WorldInv(BlockSlotIn(w, now, pid, sid).value, now)
    ensures AllPreserved(w, BlockSlotIn(w, now, pid, sid).value, now)
  {
    var s, p := w.slots[sid].(blockedAt := Some(now)), w.projects[pid];
    assert Owned(w, sid) && SlotOk(p, w.slots[sid], now);
    SetColumns(w.slots[sid], s, now);
    assert w.projects[pid := p] == w.projects;
    hide SlotInv, Keeps, AllPreserved, WorldInv;
    OneSlot(w, pid, p, sid, s, w.nextId, now);
  }

  lemma SweepRevealsStep(w: World, now: Time)
    requires WorldInv(w, now)
    ensures WorldInv(SweepRevealsIn(w, now), now)
    ensures AllPreserved(w, SweepRevealsIn(w, now), now)
  {
    hide SlotInv, Keeps, PurgeReveals;
    var w' := SweepRevealsIn(w, now);
    forall x | x in w.slots
      ensures Owned(w', x) && SlotOk(w'.projects[w'.slots[x].project], w'.slots[x], now)
      ensures Preserves(w, w', x, now)
    {
      assert Owned(w, x);
      PurgedFacts(w.projects[w.slots[x].project], w.slots[x], w.nextId, now);
    }
  }

  lemma PurgedFacts(p: Project, s: Slot, id: nat, now: Time)
    requires SlotOk(p, s, now) && IdsBelow(s.keys, id)
    ensures var s' := PurgeReveals(s, now);
      && s'.project == s.project && SlotOk(p, s', now) && IdsBelow(s'.keys, id)
      && (p.activatedAt.Some? ==> Keeps(s, s', now))
  {
    if p.activatedAt.Some? {
      hide SlotInv, Keeps;
      RevealsDoNotMatter(s, PurgeReveals(s, now), now);
    }
  }

  // A slot's first key, active at once, anchors it.
  lemma FirstKey(id: nat, now: Time, interval: Option<int>, trigger: Trigger)
    ensures KeysInv([NewActive(id, now, interval, None, trigger)], now)
    ensures Anchored([NewActive(id, now, interval, None, trigger)], 0)
  {
  }

  lemma CreateSlotStep(w: World, now: Time, pid: nat, name: string, auto: Option<bool>, interval: Option<int>)
    requires WorldInv(w, now) && CreateSlotIn(w, now, pid, name, auto, interval).Ok?
    ensures WorldInv(CreateSlotIn(w, now, pid, name, auto, interval).value, now)
    ensures AllPreserved(w, CreateSlotIn(w, now, pid, name, auto, interval).value, now)
  {
    var w' := CreateSlotIn(w, now, pid, name, auto, interval).value;
    FirstKey(w.nextId + 1, now, interval, Manual);
    forall x | x in w'.slots
      ensures Owned(w', x) && SlotOk(w'.projects[w'.slots[x].project], w'.slots[x], now)
    {
      if x != w.nextId { assert Owned(w, x); }
    }
    forall x | x in w.slots
      ensures Preserves(w, w', x, now)
    {
      if Started(w, x) {
        assert Owned(w, x);
        KeepsItself(w.slots[x], now);
      }
    }
  }

  // A project without slots gains its two default slots.
  lemma WithDefaultsStep(w: World, pid: nat, p: Project, a: Key, b: Key, now: Time)
    requires WorldInv(w, now) && pid in w.projects
    requires SlotsOf(w, pid) == {}
    requires p.readyAt.Some? ==> p.activatedAt.Some?
    requires a.id == w.nextId + 1 && b.id == w.nextId + 3
    requires SlotOk(p, NewSlot(pid, "default-publishable", p.autoRotation, Some(DEFAULT_INTERVAL), a), now)
    requires SlotOk(p, NewSlot(pid, "default-secret", p.autoRotation, Some(DEFAULT_INTERVAL), b), now)
    ensures WorldInv(WithDefaults(w, pid, p, a, b), now)
    ensures AllPreserved(w, WithDefaults(w, pid, p, a, b), now)
  {
    var w' := WithDefaults(w, pid, p, a, b);
    forall x | x in w'.slots
      ensures Owned(w', x) && SlotOk(w'.projects[w'.slots[x].project], w'.slots[x], now)
    {
      if x in w.slots {
        assert Owned(w, x);
        assert x !in SlotsOf(w, pid);
      }
    }
    forall x | x in w.slots
      ensures Preserves(w, w', x, now)
    {
      if Started(w, x) {
        assert Owned(w, x) && x !in SlotsOf(w, pid);
        KeepsItself(w.slots[x], now);
      }
    }
  }

  lemma DefaultActiveOk(p: Project, pid: nat, name: string, id: nat, now: Time)
    requires p.activatedAt.Some?
    ensures SlotOk(p, NewSlot(pid, name, p.autoRotation, Some(DEFAULT_INTERVAL),
                              NewActive(id, now, Some(DEFAULT_INTERVAL), None, Initial)), now)
  {
    FirstKey(id, now, Some(DEFAULT_INTERVAL), Initial);
  }

  lemma BootstrappedWorld(w: World, now: Time, pid: nat)
    requires BootstrapIn(w, now, pid).Ok?
    ensures pid in w.projects && SlotsOf(w, pid) == {}
    ensures BootstrapIn(w, now, pid).value == WithDefaults(w, pid,
      Bump(w.projects[pid], 2).(tokenSet := true, preparedAt := Some(now), activatedAt := Some(now), readyAt := Some(now)),
      NewActive(w.nextId + 1, now, Some(DEFAULT_INTERVAL), None, Initial),
      NewActive(w.nextId + 3, now, Some(DEFAULT_INTERVAL), None, Initial))
  {
  }

  lemma BootstrapStep(w: World, now: Time, pid: nat)
    requires WorldInv(w, now) && BootstrapIn(w, now, pid).Ok?
    ensures WorldInv(BootstrapIn(w, now, pid).value, now)
    ensures AllPreserved(w, BootstrapIn(w, now, pid).value, now)
  {
    hide WorldInv, AllPreserved, SlotOk, SlotsOf, BootstrapIn, WithDefaults;
    BootstrappedWorld(w, now, pid);
    var p := Bump(w.projects[pid], 2).(tokenSet := true, preparedAt := Some(now), activatedAt := Some(now), readyAt := Some(now));
    DefaultActiveOk(p, pid, "default-publishable", w.nextId + 1, now);
    DefaultActiveOk(p, pid, "default-secret", w.nextId + 3, now);
    WithDefaultsStep(w, pid, p,
      NewActive(w.nextId + 1, now, Some(DEFAULT_INTERVAL), None, Initial),
      NewActive(w.nextId + 3, now, Some(DEFAULT_INTERVAL), None, Initial), now);
  }

  lemma DefaultStagedOk(p: Project, pid: nat, name: string, id: nat, expiry: Option<Time>, now: Time)
    requires p.activatedAt.None?
    ensures SlotOk(p, NewSlot(pid, name, p.autoRotation, Some(DEFAULT_INTERVAL),
                              NewPending(id, now, None, expiry, None, Initial, false)), now)
  {
  }

  lemma StageDefaults(w: World, now: Time, pid: nat, p: Project, expiry: Option<Time>)
    requires WorldInv(w, now) && pid in w.projects && SlotsOf(w, pid) == {}
    requires p.activatedAt.None? && p.readyAt.None?
    ensures var w' := WithDefaults(w, pid, p,
        NewPending(w.nextId + 1, now, None, expiry, None, Initial, false),
        NewPending(w.nextId + 3, now, None, expiry, None, Initial, false));
      WorldInv(w', now) && AllPreserved(w, w', now)
  {
    DefaultStagedOk(p, pid, "default-publishable", w.nextId + 1, expiry, now);
    DefaultStagedOk(p, pid, "default-secret", w.nextId + 3, expiry, now);
    WithDefaultsStep(w, pid, p,
      NewPending(w.nextId + 1, now, None, expiry, None, Initial, false),
      NewPending(w.nextId + 3, now, None, expiry, None, Initial, false), now);
  }

  lemma PreparedWorld(w: World, now: Time, pid: nat)
    requires WorldInv(w, now) && PrepareMigrationIn(w, now, pid).Ok?
    ensures pid in w.projects && w.projects[pid].activatedAt.None? && w.projects[pid].readyAt.None? && SlotsOf(w, pid) == {}
    ensures var expiry := Some(now + (PREPARATION_WINDOW + DEFAULT_INTERVAL) * DAY);
      PrepareMigrationIn(w, now, pid).value == WithDefaults(w, pid,
        Bump(w.projects[pid], 2).(tokenSet := true, preparedAt := Some(now)),
        NewPending(w.nextId + 1, now, None, expiry, None, Initial, false),
        NewPending(w.nextId + 3, now, None, expiry, None, Initial, false))
  {
  }

  lemma PrepareMigrationStep(w: World, now: Time, pid: nat)
    requires WorldInv(w, now) && PrepareMigrationIn(w, now, pid).Ok?
    ensures WorldInv(PrepareMigrationIn(w, now, pid).value, now)
    ensures AllPreserved(w, PrepareMigrationIn(w, now, pid).value, now)
  {
    hide WorldInv, AllPreserved, WithDefaults, NewPending, SlotsOf, PrepareMigrationIn;
    PreparedWorld(w, now, pid);
    StageDefaults(w, now, pid, Bump(w.projects[pid], 2).(tokenSet := true, preparedAt := Some(now)),
                  Some(now + (PREPARATION_WINDOW + DEFAULT_INTERVAL) * DAY));
  }

  // Activation turns a staged slot into an anchored one.
  lemma ActivateInitialInv(s: Slot, now: Time, id: nat)
    requires Staged(s) && (s.keys[0].confirmedAt.Some? ==> s.keys[0].confirmedAt.value <= now)
    requires IdsBelow(s.keys, id)
    ensures SlotInv(ActivateInitial(s, now), now)
    ensures IdsBelow(ActivateInitial(s, now).keys, id)
    ensures ActivateInitial(s, now).project == s.project
  {
    var keys := ActivateInitial(s, now).keys;
    assert keys[..0] == [];
    assert Anchored(keys, 0);
  }

  lemma ActivatePreparedStep(w: World, now: Time, pid: nat)
    requires WorldInv(w, now) && ActivatePreparedIn(w, now, pid).Ok?
    ensures WorldInv(ActivatePreparedIn(w, now, pid).value, now)
    ensures AllPreserved(w, ActivatePreparedIn(w, now, pid).value, now)
  {
    hide SlotInv, Keeps, ActivateInitial, IdsBelow;
    var w' := ActivatePreparedIn(w, now, pid).value;
    forall x | x in w'.slots
      ensures Owned(w', x) && SlotOk(w'.projects[w'.slots[x].project], w'.slots[x], now)
    {
      assert Owned(w, x);
      if w.slots[x].project == pid {
        ActivateInitialInv(w.slots[x], now, w.nextId);
      }
    }
    forall x | x in w.slots
      ensures Preserves(w, w', x, now)
    {
      if Started(w, x) { KeepsItself(w.slots[x], now); }
    }
  }

  lemma AbortMigrationStep(w: World, now: Time, pid: nat)
    requires WorldInv(w, now) && AbortMigrationIn(w, now, pid).Ok?
    ensures WorldInv(AbortMigrationIn(w, now, pid).value, now)
    ensures AllPreserved(w, AbortMigrationIn(w, now, pid).value, now)
  {
    var w' := AbortMigrationIn(w, now, pid).value;
    forall x | x in w'.slots
      ensures Owned(w', x) && SlotOk(w'.projects[w'.slots[x].project], w'.slots[x], now)
    {
      assert Owned(w, x);
    }
    forall x | x in w.slots
      ensures Preserves(w, w', x, now)
    {
      if Started(w, x) { KeepsItself(w.slots[x], now); }
    }
  }

  lemma CancelProjectStep(w: World, now: Time, pid: nat)
    requires WorldInv(w, now) && CancelProjectAutomaticIn(w, now, pid).Ok?
    ensures WorldInv(CancelProjectAutomaticIn(w, now, pid).value, now)
    ensures AllPreserved(w, CancelProjectAutomaticIn(w, now, pid).value, now)
  {
    hide SlotOk, Keeps, IdsBelow, CancelAutomatic;
    var w' := CancelProjectAutomaticIn(w, now, pid).value;
    forall x | x in w'.slots
      ensures Owned(w', x) && SlotOk(w'.projects[w'.slots[x].project], w'.slots[x], now)
    {
      assert Owned(w, x);
      CancelFacts(w.projects[w.slots[x].project], w.slots[x], w.nextId, now);
    }
    forall x | x in w.slots
      ensures Preserves(w, w', x, now)
    {
      assert Owned(w, x);
      CancelFacts(w.projects[w.slots[x].project], w.slots[x], w.nextId, now);
      if Started(w, x) { KeepsItself(w.slots[x], now); }
    }
  }

  lemma CancelledIds(s: Slot, id: nat, now: Time)
    requires IdsBelow(s.keys, id)
    ensures IdsBelow(CancelAutomatic(s, now).keys, id)
  {
  }

  lemma CancelFacts(p: Project, s: Slot, id: nat, now: Time)
    requires SlotOk(p, s, now) && IdsBelow(s.keys, id)
    ensures SlotOk(p, CancelAutomatic(s, now), now) && SlotOk(Bump(p, 1), CancelAutomatic(s, now), now) && IdsBelow(CancelAutomatic(s, now).keys, id)
    ensures CancelAutomatic(s, now).project == s.project
    ensures p.activatedAt.Some? ==> Keeps(s, CancelAutomatic(s, now), now)
  {
    hide SlotInv, Keeps, IdsBelow;
    CancelledIds(s, id, now);
    if p.activatedAt.Some? { CancelAutomaticKeeps(s, now); }
  }

  lemma StepKeeps(w: World, r: Request, now: Time)
    requires WorldInv(w, now)
    ensures WorldInv(Exec(w, r, now), now)
    ensures AllPreserved(w, Exec(w, r, now), now)
  {
    if Apply(w, r, now).Err? {
      forall x | x in w.slots ensures Preserves(w, w, x, now) {
        if Started(w, x) { KeepsItself(w.slots[x], now); }
      }
    } else {
      match r
      case Register(pid, auto) => ColumnsOnly(w, pid, Project(auto, false, None, None, None, None, 0), now);
      case SetMasterSwitch(pid, auto) => ColumnsOnly(w, pid, w.projects[pid].(autoRotation := auto), now);
      case CreateSlot(pid, name, auto, interval) => CreateSlotStep(w, now, pid, name, auto, interval);
      case Bootstrap(pid) => BootstrapStep(w, now, pid);
      case PrepareMigration(pid) => PrepareMigrationStep(w, now, pid);
      case ConfirmPrepared(pid, sid, key) => ConfirmPreparedStep(w, now, pid, sid, key);
      case StartCutover(pid) =>
        ColumnsOnly(w, pid, StartCutoverIn(w, now, pid).value.projects[pid], now);
      case ActivatePrepared(pid) => ActivatePreparedStep(w, now, pid);
      case MarkReady(pid) => ColumnsOnly(w, pid, w.projects[pid].(readyAt := Some(now)), now);
      case AbortMigration(pid) => AbortMigrationStep(w, now, pid);
      case CancelProjectAutomatic(pid) => CancelProjectStep(w, now, pid);
      case RevealKey(pid, sid, row) => RevealKeyStep(w, now, pid, sid, row);
      case BlockSlot(pid, sid) => BlockSlotStep(w, now, pid, sid);
      case SweepReveals => SweepRevealsStep(w, now);
      case OnSlot(pid, sid, op) => OnSlotStep(w, now, pid, sid, op);
    }
  }

  // ---------------------------------------------------------------------------
  // Whole runs

  datatype Event = Event(at: Time, request: Request)

  function Run(w: World, events: seq<Event>): World
    decreases events
  {
    if events == [] then w
    else Run(Exec(w, events[0].request, events[0].at), events[1..])
  }

  // The clock does not run backwards between `start` and `end`.
  ghost predicate Clocked(events: seq<Event>, start: Time, end: Time) {
    if events == [] then start <= end
    else start <= events[0].at && Clocked(events[1..], events[0].at, end)
  }

  const EMPTY := World(map[], map[], 0)

  lemma {:induction false} RunInv(w: World, events: seq<Event>, start: Time, end: Time)
    requires WorldInv(w, start) && Clocked(events, start, end)
    ensures WorldInv(Run(w, events), end)
    decreases events
  {
    if events == [] {
      WorldLater(w, start, end);
    } else {
      var e := events[0];
      WorldLater(w, start, e.at);
      StepKeeps(w, e.request, e.at);
      RunInv(Exec(w, e.request, e.at), events[1..], e.at, end);
    }
  }

  lemma SpentLater(w: World, sid: nat, row: nat, now: Time, later: Time)
    requires WorldInv(w, now) && now <= later && Spent(w, sid, row, now)
    ensures Spent(w, sid, row, later)
  {
  }

  lemma {:induction false} SpentStays(w: World, events: seq<Event>, start: Time, end: Time, sid: nat, row: nat)
    requires WorldInv(w, start) && Clocked(events, start, end) && Spent(w, sid, row, start)
    ensures Spent(Run(w, events), sid, row, end)
    decreases events
  {
    if events == [] {
      SpentLater(w, sid, row, start, end);
    } else {
      var e := events[0];
      var w1 := Exec(w, e.request, e.at);
      SpentLater(w, sid, row, start, e.at);
      WorldLater(w, start, e.at);
      StepKeeps(w, e.request, e.at);
      assert Preserves(w, w1, sid, e.at);
      SpentStays(w1, events[1..], e.at, end, sid, row);
    }
  }

  // The row has been usable by clients at some moment.
  ghost predicate Seen(w: World, sid: nat, row: nat, t: Time) {
    Started(w, sid) && row < |w.slots[sid].keys| && EverEffective(w.slots[sid].keys[row], t)
  }

  lemma {:induction false} SeenStays(w: World, events: seq<Event>, start: Time, end: Time, sid: nat, row: nat)
    requires WorldInv(w, start) && Clocked(events, start, end) && Seen(w, sid, row, start)
    ensures Seen(Run(w, events), sid, row, end)
    decreases events
  {
    if events != [] {
      var e := events[0];
      var w1 := Exec(w, e.request, e.at);
      WorldLater(w, start, e.at);
      StepKeeps(w, e.request, e.at);
      assert Preserves(w, w1, sid, e.at);
      SeenStays(w1, events[1..], e.at, end, sid, row);
    }
  }

  // In every reachable state, a slot has at most one admitted key at any instant.
  lemma OneAdmittedKey(events: seq<Event>, start: Time, end: Time, sid: nat, i: nat, j: nat, t: Time)
    requires Clocked(events, start, end)
    requires Admits(Run(EMPTY, events), sid, i, t) && Admits(Run(EMPTY, events), sid, j, t)
    ensures i == j
  {
    RunInv(EMPTY, events, start, end);
    AtMostOneAccepted(Run(EMPTY, events).slots[sid], end, i, j, t);
  }

  // Acceptance is one unbroken interval: a key admitted at t1 and not at t2 is
  // admitted at no later instant, whatever requests run in between.
  lemma AcceptanceIsOneInterval(before: seq<Event>, between: seq<Event>, after: seq<Event>,
                                t0: Time, t1: Time, t2: Time, t3: Time, sid: nat, row: nat)
    requires Clocked(before, t0, t1) && Clocked(between, t1, t2) && Clocked(after, t2, t3)
    requires var w1 := Run(EMPTY, before); var w2 := Run(w1, between);
      Admits(w1, sid, row, t1) && !Admits(w2, sid, row, t2)
    ensures !Admits(Run(Run(Run(EMPTY, before), between), after), sid, row, t3)
  {
    var w1 := Run(EMPTY, before);
    var w2 := Run(w1, between);
    RunInv(EMPTY, before, t0, t1);
    RunInv(w1, between, t1, t2);
    AdmittedIsSeen(w1, sid, row, t1);
    SeenStays(w1, between, t1, t2, sid, row);
    assert Spent(w2, sid, row, t2);
    SpentStays(w2, after, t2, t3, sid, row);
  }

  lemma AdmittedIsSeen(w: World, sid: nat, row: nat, t: Time)
    requires WorldInv(w, t) && Admits(w, sid, row, t)
    ensures Seen(w, sid, row, t)
  {
  }

  // In every reachable state of an active project the administrator's column agrees with
  // the authorizer, and so does public discovery once the gateway is ready.
  lemma ListingMatchesAuthorizer(events: seq<Event>, start: Time, end: Time, sid: nat, row: nat, t: Time)
    requires Clocked(events, start, end)
    requires Started(Run(EMPTY, events), sid) && row < |Run(EMPTY, events).slots[sid].keys|
    ensures ShownAsAccepted(Run(EMPTY, events).slots[sid], row, t) == Admits(Run(EMPTY, events), sid, row, t)
    ensures var w := Run(EMPTY, events);
      Discovered(w, sid, row, t) <==> w.projects[w.slots[sid].project].readyAt.Some? && Admits(w, sid, row, t)
  {
    RunInv(EMPTY, events, start, end);
    QueriesAgree(Run(EMPTY, events).slots[sid], end, row, t);
  }

  // In every reachable state, and at every later instant, the keys that clients have
  // used on a slot form one chain whose end is the admitted key, if there is one.
  lemma ReachableChain(events: seq<Event>, start: Time, end: Time, sid: nat, t: Time)
    requires Clocked(events, start, end) && end <= t
    requires Started(Run(EMPTY, events), sid)
    ensures var keys := Run(EMPTY, events).slots[sid].keys;
      && Linked(EffectiveKeys(keys, t))
      && IdsBelow(keys, Run(EMPTY, events).nextId)
      && forall row: nat :: Admits(Run(EMPTY, events), sid, row, t) ==> Ends(EffectiveKeys(keys, t), Some(keys[row].id))
  {
    var w := Run(EMPTY, events);
    RunInv(EMPTY, events, start, end);
    assert Owned(w, sid);
    OneChain(w.slots[sid], end, t);
    forall row: nat | Admits(w, sid, row, t)
      ensures Ends(EffectiveKeys(w.slots[sid].keys, t), Some(w.slots[sid].keys[row].id))
    {
      AcceptedIffServing(w.slots[sid], end, row, t);
    }
  }

  // In every reachable state a pending key of an active project replaces the active
  // key of its slot, and is to take over no later than that key expires.
  lemma PendingHasLivePredecessor(events: seq<Event>, start: Time, end: Time, sid: nat)
    requires Clocked(events, start, end)
    requires Started(Run(EMPTY, events), sid)
    requires Find(Run(EMPTY, events).slots[sid].keys, Pending).Some?
    ensures var keys := Run(EMPTY, events).slots[sid].keys;
      && Find(keys, Active).Some?
      && var p, a := keys[Find(keys, Pending).value], keys[Find(keys, Active).value];
         && p.predecessor == Some(a.id)
         && p.activateAt.Some?
         && (a.expiresAt.Some? ==> p.activateAt.value <= a.expiresAt.value)
  {
    RunInv(EMPTY, events, start, end);
    var w := Run(EMPTY, events);
    assert SlotOk(w.projects[w.slots[sid].project], w.slots[sid], end);
    hide WorldInv, Run;
    PendingFollowsActive(w.slots[sid], end);
  }

  lemma PendingFollowsActive(s: Slot, now: Time)
    requires SlotInv(s, now) && Find(s.keys, Pending).Some?
    ensures Find(s.keys, Active).Some?
    ensures var p, a := s.keys[Find(s.keys, Pending).value], s.keys[Find(s.keys, Active).value];
      && p.predecessor == Some(a.id)
      && p.activateAt.Some?
      && (a.expiresAt.Some? ==> p.activateAt.value <= a.expiresAt.value)
  {
  }
}
