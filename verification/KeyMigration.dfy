// A project's way to opaque keys: prepared, cut over, activated, ready, or aborted.
module KeyMigration {
  import opened Prelude
  import opened KeySlots
  import opened KeySlotProofs
  import opened KeyVisibility
  import opened KeyWorld
  import opened KeyRuns
  import opened KeyContinuity

  // ---------------------------------------------------------------------------
  // The stages of a project

  // Exactly the two default slots.
  ghost predicate TwoDefaults(w: World, pid: nat) {
    exists a: nat, b: nat :: Defaults(w, pid, a, b)
  }

  ghost predicate Defaults(w: World, pid: nat, a: nat, b: nat) {
    && SlotsOf(w, pid) == {a, b}
    && w.slots[a].name == "default-publishable" && w.slots[b].name == "default-secret"
  }

  predicate NoEarlier(a: Option<Time>, b: Option<Time>) { a.Some? && b.Some? ==> a.value <= b.value }

  ghost predicate StageOk(w: World, pid: nat, p: Project, now: Time) {
    && (p.preparedAt.None? ==>
          p.activatedAt.None? && p.cutoverAt.None? && p.readyAt.None? && !p.tokenSet && SlotsOf(w, pid) == {})
    && (p.preparedAt.Some? && p.activatedAt.None? ==> p.tokenSet && p.readyAt.None? && TwoDefaults(w, pid))
    && (p.activatedAt.Some? && p.readyAt.None? ==> p.cutoverAt.Some?)
    && InOrder(p, now)
  }

  // Prepared, cut over, activated and ready follow one another.
  predicate InOrder(p: Project, now: Time) {
    && NoEarlier(p.preparedAt, p.cutoverAt) && NoEarlier(p.cutoverAt, p.activatedAt)
    && NoEarlier(p.preparedAt, p.activatedAt) && NoEarlier(p.activatedAt, p.readyAt)
    && NoEarlier(p.preparedAt, Some(now)) && NoEarlier(p.cutoverAt, Some(now))
    && NoEarlier(p.activatedAt, Some(now)) && NoEarlier(p.readyAt, Some(now))
  }

  ghost predicate MigrationInv(w: World, now: Time) {
    forall pid :: pid in w.projects ==> StageOk(w, pid, w.projects[pid], now)
  }

  // ---------------------------------------------------------------------------
  // What every request keeps of the stages

  // The same slots under the same names, whatever became of their keys.
  ghost predicate SameSlots(w: World, w': World, pid: nat) {
    && SlotsOf(w', pid) == SlotsOf(w, pid)
    && forall sid :: sid in SlotsOf(w, pid) ==> w'.slots[sid].name == w.slots[sid].name
  }

  lemma StageKept(w: World, w': World, pid: nat, p: Project, p': Project, now: Time)
    requires StageOk(w, pid, p, now) && SameSlots(w, w', pid)
    requires p' == p.(version := p'.version, autoRotation := p'.autoRotation)
    ensures StageOk(w', pid, p', now)
  {
    if TwoDefaults(w, pid) {
      var a: nat, b: nat :| Defaults(w, pid, a, b);
      assert a in SlotsOf(w, pid) && b in SlotsOf(w, pid);
      assert Defaults(w', pid, a, b);
    }
  }

  // A request that adds and removes no slot.
  predicate InPlace(r: Request) {
    r.ConfirmPrepared? || r.CancelProjectAutomatic? || r.RevealKey? || r.BlockSlot? || r.SweepReveals? || r.OnSlot?
    || r.SetMasterSwitch?
  }

  lemma InPlaceKeepsSlots(w: World, r: Request, now: Time, pid: nat)
    requires InPlace(r) && pid in w.projects
    ensures var w' := Exec(w, r, now);
      && SameSlots(w, w', pid) && pid in w'.projects
      && w'.projects[pid] == w.projects[pid].(version := w'.projects[pid].version, autoRotation := w'.projects[pid].autoRotation)
  {
    if r.OnSlot? {
      if Apply(w, r, now).Ok? { PerformRows(w.slots[r.sid], r.op, now, w.nextId); }
      hide Perform;
    } else {
      hide Perform;
    }
  }

  // Two new default slots of a project that had none.
  lemma DefaultsInserted(w: World, pid: nat, p: Project, a: Key, b: Key, now: Time)
    requires WorldInv(w, now) && SlotsOf(w, pid) == {}
    ensures TwoDefaults(WithDefaults(w, pid, p, a, b), pid)
    ensures forall x :: x != pid ==> SameSlots(w, WithDefaults(w, pid, p, a, b), x)
  {
    var w' := WithDefaults(w, pid, p, a, b);
    forall x | x in w.slots
      ensures x < w.nextId && w.slots[x].project != pid
    {
      assert Owned(w, x) && x !in SlotsOf(w, pid);
    }
    hide WorldInv;
    assert Defaults(w', pid, w.nextId, w.nextId + 2);
  }

  lemma OneSlotAdded(w: World, now: Time, pid: nat, name: string, auto: Option<bool>, interval: Option<int>, x: nat)
    requires WorldInv(w, now) && CreateSlotIn(w, now, pid, name, auto, interval).Ok? && x != pid
    ensures SameSlots(w, CreateSlotIn(w, now, pid, name, auto, interval).value, x)
  {
    forall y | y in w.slots
      ensures y < w.nextId
    {
      assert Owned(w, y);
    }
    hide WorldInv;
  }

  lemma NobodyElses(w: World, pid: nat, now: Time)
    requires WorldInv(w, now) && pid !in w.projects
    ensures SlotsOf(w, pid) == {}
  {
    forall x | x in w.slots
      ensures w.slots[x].project != pid
    {
      assert Owned(w, x);
    }
  }

  lemma ActivatedSlots(w: World, now: Time, pid: nat, x: nat)
    requires ActivatePreparedIn(w, now, pid).Ok?
    ensures SameSlots(w, ActivatePreparedIn(w, now, pid).value, x)
  {
    hide ValidatePrepared;
  }

  lemma ValidatedProject(w: World, now: Time, pid: nat)
    requires ValidatePrepared(w, now, pid, true).None?
    ensures pid in w.projects && w.projects[pid].preparedAt.Some? && w.projects[pid].activatedAt.None? && w.projects[pid].cutoverAt.Some?
  {
  }

  lemma AbortedSlots(w: World, now: Time, pid: nat, x: nat)
    requires AbortMigrationIn(w, now, pid).Ok?
    ensures SlotsOf(AbortMigrationIn(w, now, pid).value, pid) == {}
    ensures x != pid ==> SameSlots(w, AbortMigrationIn(w, now, pid).value, x)
  {
    hide JoinedRows, RowNames;
  }

  lemma StageLater(w: World, pid: nat, p: Project, now: Time, later: Time)
    requires StageOk(w, pid, p, now) && now <= later
    ensures StageOk(w, pid, p, later)
  {
    hide TwoDefaults;
  }

  lemma StepStages(w: World, r: Request, now: Time, x: nat)
    requires WorldInv(w, now) && MigrationInv(w, now) && x in Exec(w, r, now).projects
    ensures StageOk(Exec(w, r, now), x, Exec(w, r, now).projects[x], now)
  {
    var w' := Exec(w, r, now);
    if Apply(w, r, now).Err? {
    } else if InPlace(r) {
      assert x in w.projects by { hide Perform; }
      InPlaceKeepsSlots(w, r, now, x);
      hide Exec, Apply;
      StageKept(w, w', x, w.projects[x], w'.projects[x], now);
    } else {
      PathStages(w, r, now, x);
    }
  }

  lemma PathStages(w: World, r: Request, now: Time, x: nat)
    requires WorldInv(w, now) && MigrationInv(w, now) && Apply(w, r, now).Ok? && !InPlace(r)
    requires x in Apply(w, r, now).value.projects
    ensures StageOk(Apply(w, r, now).value, x, Apply(w, r, now).value.projects[x], now)
  {
    hide WorldInv, ValidatePrepared, TwoDefaults;
    match r
    case Register(pid, auto) =>
      assert SlotsOf(Apply(w, r, now).value, x) == SlotsOf(w, x);
      if x == pid {
        NobodyElses(w, pid, now);
      } else {
        StageKept(w, Apply(w, r, now).value, x, w.projects[x], w.projects[x], now);
      }
    case CreateSlot(pid, name, auto, interval) =>
      if x != pid {
        OneSlotAdded(w, now, pid, name, auto, interval, x);
        StageKept(w, Apply(w, r, now).value, x, w.projects[x], w.projects[x], now);
      }
    case Bootstrap(pid) => BootstrapStages(w, now, pid, x);
    case PrepareMigration(pid) => PrepareStages(w, now, pid, x);
    case StartCutover(pid) => StageKept(w, Apply(w, r, now).value, x, w.projects[x], w.projects[x], now);
    case ActivatePrepared(pid) =>
      ValidatedProject(w, now, pid);
      ActivatedSlots(w, now, pid, x);
      StageKept(w, Apply(w, r, now).value, x, w.projects[x], w.projects[x], now);
    case MarkReady(pid) => StageKept(w, Apply(w, r, now).value, x, w.projects[x], w.projects[x], now);
    case AbortMigration(pid) =>
      AbortedSlots(w, now, pid, x);
      if x != pid { StageKept(w, Apply(w, r, now).value, x, w.projects[x], w.projects[x], now); }
    case _ =>
  }

  lemma BootstrapStages(w: World, now: Time, pid: nat, x: nat)
    requires WorldInv(w, now) && MigrationInv(w, now) && BootstrapIn(w, now, pid).Ok? && x in w.projects
    ensures var w' := BootstrapIn(w, now, pid).value; StageOk(w', x, w'.projects[x], now)
  {
    var w' := BootstrapIn(w, now, pid).value;
    BootstrappedWorld(w, now, pid);
    DefaultsInserted(w, pid, w'.projects[pid], NewActive(w.nextId + 1, now, Some(DEFAULT_INTERVAL), None, Initial),
                     NewActive(w.nextId + 3, now, Some(DEFAULT_INTERVAL), None, Initial), now);
    hide WorldInv, TwoDefaults, SlotsOf;
    if x != pid { StageKept(w, w', x, w.projects[x], w.projects[x], now); }
  }

  lemma PrepareStages(w: World, now: Time, pid: nat, x: nat)
    requires WorldInv(w, now) && MigrationInv(w, now) && PrepareMigrationIn(w, now, pid).Ok? && x in w.projects
    ensures var w' := PrepareMigrationIn(w, now, pid).value; StageOk(w', x, w'.projects[x], now)
  {
    var w' := PrepareMigrationIn(w, now, pid).value;
    PreparedWorld(w, now, pid);
    var expiry := Some(now + (PREPARATION_WINDOW + DEFAULT_INTERVAL) * DAY);
    DefaultsInserted(w, pid, w'.projects[pid], NewPending(w.nextId + 1, now, None, expiry, None, Initial, false),
                     NewPending(w.nextId + 3, now, None, expiry, None, Initial, false), now);
    hide WorldInv, TwoDefaults, SlotsOf;
    if x != pid { StageKept(w, w', x, w.projects[x], w.projects[x], now); }
  }

  lemma {:induction false} RunStages(w: World, events: seq<Event>, start: Time, end: Time)
    requires WorldInv(w, start) && MigrationInv(w, start) && Clocked(events, start, end)
    ensures MigrationInv(Run(w, events), end)
    decreases events
  {
    hide WorldInv, Exec, StageOk;
    var at := if events == [] then end else events[0].at;
    forall pid | pid in w.projects
      ensures StageOk(w, pid, w.projects[pid], at)
    {
      StageLater(w, pid, w.projects[pid], start, at);
    }
    if events != [] {
      var r := events[0].request;
      WorldLater(w, start, at);
      StepKeeps(w, r, at);
      forall pid | pid in Exec(w, r, at).projects
        ensures StageOk(Exec(w, r, at), pid, Exec(w, r, at).projects[pid], at)
      {
        StepStages(w, r, at, pid);
      }
      RunStages(Exec(w, r, at), events[1..], at, end);
    }
  }

  // ---------------------------------------------------------------------------
  // What a migration can do, in every reachable state

  lemma Reachable(events: seq<Event>, start: Time, end: Time)
    requires Clocked(events, start, end)
    ensures WorldInv(Run(EMPTY, events), end) && MigrationInv(Run(EMPTY, events), end)
  {
    RunInv(EMPTY, events, start, end);
    RunStages(EMPTY, events, start, end);
  }

  // Prepared, cut over, activated, ready: in every reachable state the stamps come in that
  // order, and a gateway is ready only with its keys active.
  lemma MigrationOrder(events: seq<Event>, start: Time, end: Time, pid: nat)
    requires Clocked(events, start, end) && pid in Run(EMPTY, events).projects
    ensures var p := Run(EMPTY, events).projects[pid];
      && InOrder(p, end)
      && (p.cutoverAt.Some? || p.activatedAt.Some? ==> p.preparedAt.Some?)
      && (p.activatedAt.Some? ==> p.cutoverAt.Some? || p.readyAt.Some?)
      && (p.readyAt.Some? ==> p.activatedAt.Some?)
  {
    Reachable(events, start, end);
    assert StageOk(Run(EMPTY, events), pid, Run(EMPTY, events).projects[pid], end);
  }

  // The joined rows of two staged slots are their two initial keys.
  lemma StagedRows(w: World, pid: nat, a: nat, b: nat, now: Time)
    requires WorldInv(w, now) && pid in w.projects && w.projects[pid].activatedAt.None? && Defaults(w, pid, a, b)
    ensures a in w.slots && b in w.slots && Staged(w.slots[a]) && Staged(w.slots[b]) && a != b
    ensures JoinedRows(w, pid) == {(a, 0), (b, 0)} == PreparedRows(w, pid)
    ensures RowNames(w, {(a, 0), (b, 0)}) == DEFAULT_NAMES && |JoinedRows(w, pid)| == 2
  {
    assert a in SlotsOf(w, pid) && b in SlotsOf(w, pid);
    assert SlotOk(w.projects[pid], w.slots[a], now) && SlotOk(w.projects[pid], w.slots[b], now);
    hide WorldInv;
    forall r
      ensures r in JoinedRows(w, pid) <==> r == (a, 0) || r == (b, 0)
    {
      assert r in JoinedRows(w, pid) ==> r.0 in SlotsOf(w, pid);
    }
  }

  // A prepared migration can be aborted exactly until its cutover starts: its keyset is
  // never found inconsistent.
  lemma AbortIff(w: World, now: Time, pid: nat)
    requires WorldInv(w, now) && MigrationInv(w, now)
    ensures AbortMigrationIn(w, now, pid).Ok? <==>
      && pid in w.projects && w.projects[pid].preparedAt.Some?
      && w.projects[pid].activatedAt.None? && w.projects[pid].cutoverAt.None?
  {
    if pid in w.projects && w.projects[pid].preparedAt.Some? && w.projects[pid].activatedAt.None? {
      assert StageOk(w, pid, w.projects[pid], now);
      var a: nat, b: nat :| Defaults(w, pid, a, b);
      StagedRows(w, pid, a, b, now);
    }
  }

  // An abort takes the project back to where it was before it was prepared: nobody's access
  // changes, nothing of the migration is left, and it can be prepared or bootstrapped anew.
  lemma AbortStartsOver(w: World, now: Time, pid: nat)
    requires WorldInv(w, now) && MigrationInv(w, now) && AbortMigrationIn(w, now, pid).Ok?
    ensures var w' := AbortMigrationIn(w, now, pid).value;
      && w'.projects[pid] == Project(w.projects[pid].autoRotation, false, None, None, None, None, w.projects[pid].version + 1)
      && SlotsOf(w', pid) == {}
      && PrepareMigrationIn(w', now, pid).Ok? && BootstrapIn(w', now, pid).Ok?
      && SameAccess(w, w')
  {
    assert StageOk(w, pid, w.projects[pid], now);
    AbortedSlots(w, now, pid, pid);
    PathNoAccess(w, AbortMigration(pid), now);
    hide WorldInv, MigrationInv, RowNames, JoinedRows, SameAccess, PrepareMigrationIn, BootstrapIn;
    var w' := AbortMigrationIn(w, now, pid).value;
    assert w'.projects[pid] == Project(w.projects[pid].autoRotation, false, None, None, None, None, w.projects[pid].version + 1);
    StartsAnew(w', now, pid);
  }

  lemma StartsAnew(w: World, now: Time, pid: nat)
    requires pid in w.projects && SlotsOf(w, pid) == {}
    requires var p := w.projects[pid];
      !p.tokenSet && p.preparedAt.None? && p.activatedAt.None? && p.cutoverAt.None? && p.readyAt.None?
    ensures PrepareMigrationIn(w, now, pid).Ok? && BootstrapIn(w, now, pid).Ok?
  {
  }

  ghost predicate SameAccess(w: World, w': World) {
    forall sid: nat, row: nat, t: Time :: Admits(w', sid, row, t) <==> Admits(w, sid, row, t)
  }

  // Until its keys are activated a migration changes nobody's access, now or later, and
  // neither does declaring its gateway ready.
  lemma PathNoAccess(w: World, r: Request, now: Time)
    requires BeforeActivation(r) && WorldInv(w, now)
    ensures SameAccess(w, Exec(w, r, now))
  {
    var w' := Exec(w, r, now);
    forall sid: nat, row: nat, t: Time
      ensures Admits(w', sid, row, t) <==> Admits(w, sid, row, t)
    {
      if Started(w, sid) {
        assert Owned(w, sid);
        ProjectLevelPassesBy(w, r, now, sid);
      } else {
        NothingStarts(w, r, now, sid);
      }
      hide Exec, Accepted, WorldInv;
    }
  }

  // ---------------------------------------------------------------------------
  // The cutover

  // Both default keys are known to their consumers and have not expired.
  ghost predicate KeysInHand(w: World, now: Time, pid: nat) {
    forall r :: r in JoinedRows(w, pid) ==>
      var k := w.slots[r.0].keys[r.1]; k.revealedAt.Some? && k.confirmedAt.Some? && Unexpired(k, now)
  }

  // In every reachable state a cutover can start exactly for a prepared project that is not
  // ready and whose two keys are revealed, confirmed and unexpired, or active already.
  lemma CutoverIff(w: World, now: Time, pid: nat)
    requires WorldInv(w, now) && MigrationInv(w, now)
    ensures StartCutoverIn(w, now, pid).Ok? <==>
      && pid in w.projects && w.projects[pid].preparedAt.Some? && w.projects[pid].readyAt.None?
      && (w.projects[pid].activatedAt.Some? || KeysInHand(w, now, pid))
  {
    if pid in w.projects && w.projects[pid].preparedAt.Some? && w.projects[pid].activatedAt.None? {
      ValidIff(w, now, pid);
    }
  }

  lemma ValidIff(w: World, now: Time, pid: nat)
    requires WorldInv(w, now) && MigrationInv(w, now)
    requires pid in w.projects && w.projects[pid].preparedAt.Some? && w.projects[pid].activatedAt.None?
    ensures ValidatePrepared(w, now, pid, false).None? <==> KeysInHand(w, now, pid)
  {
    assert StageOk(w, pid, w.projects[pid], now);
    var a: nat, b: nat :| Defaults(w, pid, a, b);
    StagedRows(w, pid, a, b, now);
    hide WorldInv, MigrationInv, Defaults, StageOk, Staged, ValidatePrepared, KeysInHand;
    TwoRowsValid(w, now, pid, a, b);
  }

  lemma TwoRowsValid(w: World, now: Time, pid: nat, a: nat, b: nat)
    requires pid in w.projects && w.projects[pid].preparedAt.Some? && w.projects[pid].activatedAt.None?
    requires a != b && JoinedRows(w, pid) == {(a, 0), (b, 0)} == PreparedRows(w, pid)
    requires RowNames(w, {(a, 0), (b, 0)}) == DEFAULT_NAMES
    ensures ValidatePrepared(w, now, pid, false).None? <==> KeysInHand(w, now, pid)
  {
    hide RowNames;
  }

  // A cutover that starts can be completed at once: activation succeeds, then readiness, the
  // project is live, and each default slot admits exactly the key prepared for it.
  lemma CutoverCompletes(w: World, now: Time, pid: nat)
    requires WorldInv(w, now) && MigrationInv(w, now)
    requires StartCutoverIn(w, now, pid).Ok? && w.projects[pid].activatedAt.None?
    ensures var w1 := StartCutoverIn(w, now, pid).value;
      && ActivatePreparedIn(w1, now, pid).Ok?
      && var w2 := ActivatePreparedIn(w1, now, pid).value;
         && MarkReadyIn(w2, now, pid).Ok? && Live(MarkReadyIn(w2, now, pid).value.projects[pid])
         && (forall sid, row: nat :: sid in SlotsOf(w, pid) ==> (Admits(w2, sid, row, now) <==> row == 0))
         && (forall sid :: sid in SlotsOf(w, pid) ==> Begun(w.slots[sid], w2.slots[sid], now))
  {
    var w1 := StartCutoverIn(w, now, pid).value;
    StillValid(w, w1, now, pid);
    hide Begun, Admits, ValidatePrepared, ActivateInitial, WorldInv, MigrationInv;
    var w2 := ActivatePreparedIn(w1, now, pid).value;
    forall sid | sid in SlotsOf(w, pid)
      ensures Begun(w.slots[sid], w2.slots[sid], now) && forall row: nat :: Admits(w2, sid, row, now) <==> row == 0
    {
      SlotBegins(w, w2, pid, sid, now);
    }
    hide SlotsOf;
  }

  // The cutover's own stamp does not disturb the keyset.
  lemma StillValid(w: World, w1: World, now: Time, pid: nat)
    requires pid in w.projects && w.projects[pid].activatedAt.None? && StartCutoverIn(w, now, pid) == Ok(w1)
    ensures ValidatePrepared(w1, now, pid, true).None?
  {
    assert JoinedRows(w1, pid) == JoinedRows(w, pid) && PreparedRows(w1, pid) == PreparedRows(w, pid);
    assert RowNames(w1, PreparedRows(w, pid)) == RowNames(w, PreparedRows(w, pid));
    hide JoinedRows, PreparedRows, RowNames;
  }

  lemma SlotBegins(w: World, w2: World, pid: nat, sid: nat, now: Time)
    requires WorldInv(w, now) && sid in SlotsOf(w, pid) && pid in w.projects && w.projects[pid].activatedAt.None?
    requires sid in w2.slots && w2.slots[sid] == ActivateInitial(w.slots[sid], now)
    requires pid in w2.projects && w2.projects[pid].activatedAt.Some?
    ensures Begun(w.slots[sid], w2.slots[sid], now) && forall row: nat :: Admits(w2, sid, row, now) <==> row == 0
  {
    assert Owned(w, sid) && Staged(w.slots[sid]);
    ActivatedIsAccepted(w.slots[sid], now);
    hide WorldInv, Accepted;
  }

  // The slot's one key is in use from now on for a full lifetime; nothing else of it changed.
  ghost predicate Begun(s: Slot, s': Slot, now: Time) {
    && |s.keys| == |s'.keys| == 1 && s' == s.(keys := s'.keys)
    && s'.keys[0] == s.keys[0].(status := Active, activateAt := Some(now), activatedAt := Some(now),
         expiresAt := if s.interval.None? then None else Some(now + s.interval.value * 24 * 60 * 60 * 1_000_000))
  }

  lemma ActivatedIsAccepted(s: Slot, now: Time)
    requires Staged(s)
    ensures |ActivateInitial(s, now).keys| == 1 && Accepted(ActivateInitial(s, now), 0, now) && Begun(s, ActivateInitial(s, now), now)
  {
  }
}
