// Every operation on a slot, on the rows themselves: exactly when it is accepted, and what it
// leaves in each row.
module KeyOperations {
  import opened Prelude
  import opened KeySlots
  import opened KeySlotProofs
  import opened KeyWorld
  import opened KeyRuns

  // ---------------------------------------------------------------------------
  // Words

  ghost predicate IsPending(s: Slot, i: nat) { i < |s.keys| && s.keys[i].status.Pending? }

  ghost predicate IsActive(s: Slot, i: nat) { i < |s.keys| && s.keys[i].status.Active? }

  ghost predicate NothingPending(s: Slot) { forall i: nat :: !IsPending(s, i) }

  // Clients may use it already: it was confirmed, and its time has come.
  ghost predicate InUse(k: Key, now: Time) { k.confirmedAt.Some? && k.activateAt.Some? && k.activateAt.value <= now }

  ghost predicate Alive(k: Key, now: Time) { k.expiresAt.None? || now < k.expiresAt.value }

  // So many days of 86400 seconds in microseconds, or for ever.
  function LifetimeEnd(start: Time, interval: Option<int>): Option<Time> {
    match interval
    case None => None
    case Some(days) => Some(start + days * 24 * 60 * 60 * 1_000_000)
  }

  ghost predicate Ended(k: Key, k': Key, now: Time) {
    k' == k.(status := Revoked, revokedAt := Some(now), revealStored := false)
  }

  // ---------------------------------------------------------------------------
  // When an operation is accepted

  ghost predicate Acceptable(s: Slot, op: SlotOp, now: Time) {
    match op
    case DoRotateNow => forall i: nat :: IsPending(s, i) ==> InUse(s.keys[i], now)
    case DoPrepareRotation(at, _, _) =>
      && now < at && NothingPending(s)
      && forall i: nat :: IsActive(s, i) ==> s.keys[i].expiresAt.None? || at <= s.keys[i].expiresAt.value
    case DoActivatePending => exists i: nat :: IsPending(s, i) && InUse(s.keys[i], now) && Alive(s.keys[i], now)
    case DoConfirm(id) =>
      exists i: nat :: IsPending(s, i) && s.keys[i].id == id && s.keys[i].revealedAt.Some? && s.keys[i].confirmedAt.None?
                       && Alive(s.keys[i], now)
    case DoCancelPending => exists i: nat :: IsPending(s, i) && !InUse(s.keys[i], now)
    case DoDisable => true
    case DoUpdatePolicy(auto, interval, services) =>
      var newAuto, newInterval := NewAuto(s, auto), NewInterval(s, interval);
      && (auto.Some? || interval.Some? || services)
      && (interval.Some? && interval.value.Some? ==> 1 <= interval.value.value <= 3650)
      && (newInterval.None? ==> !newAuto)
      && (newInterval != s.interval ==>
            && (forall i: nat :: IsPending(s, i) ==> Withdrawn(s.keys[i], auto, now))
            && (forall i: nat :: IsActive(s, i) ==> Alive(s.keys[i], now)))
  }

  function NewAuto(s: Slot, auto: Option<bool>): bool { if auto.Some? then auto.value else s.autoRotation }

  function NewInterval(s: Slot, interval: Option<Option<int>>): Option<int> {
    if interval.Some? then interval.value else s.interval
  }

  // Switching automatic rotation off withdraws a machine-made replacement not yet in use.
  ghost predicate Withdrawn(k: Key, auto: Option<bool>, now: Time) {
    auto == Some(false) && k.status.Pending? && k.trigger.Automatic? && !InUse(k, now)
  }

  // ---------------------------------------------------------------------------
  // What it does

  ghost predicate SameRow(s: Slot, s': Slot, i: nat) { i < |s.keys| && i < |s'.keys| && s'.keys[i] == s.keys[i] }

  ghost predicate EndedRow(s: Slot, s': Slot, i: nat, now: Time) {
    i < |s.keys| && i < |s'.keys| && Ended(s.keys[i], s'.keys[i], now)
  }

  ghost predicate Effect(s: Slot, s': Slot, op: SlotOp, now: Time, id: nat) {
    match op
    case DoRotateNow =>
      && s' == s.(keys := s'.keys, blockedAt := None) && |s'.keys| == |s.keys| + 1
      && (forall i: nat :: i < |s.keys| ==> if s.keys[i].status.Revoked? then SameRow(s, s', i) else EndedRow(s, s', i, now))
      && exists i: nat :: (IsPending(s, i) || (IsActive(s, i) && NothingPending(s)))
           && s'.keys[|s.keys|] == Key(id, Active, None, LifetimeEnd(now, s.interval), Some(now), None, None, None,
                                       Some(s.keys[i].id), Manual, true)
    case DoPrepareRotation(at, inline, trigger) =>
      && s' == s.(keys := s'.keys, blockedAt := None) && |s'.keys| == |s.keys| + 1
      && (forall i: nat :: i < |s.keys| ==> SameRow(s, s', i))
      && exists i: nat :: IsActive(s, i)
           && s'.keys[|s.keys|] == Key(id, Pending, Some(at), LifetimeEnd(at, s.interval), None, None,
                                       if inline then Some(now) else None, None, Some(s.keys[i].id), trigger, true)
    case DoActivatePending =>
      && s' == s.(keys := s'.keys) && |s'.keys| == |s.keys|
      && forall i: nat :: i < |s.keys| ==>
           if IsPending(s, i) then s'.keys[i] == s.keys[i].(status := Active, activatedAt := Some(now))
           else if IsActive(s, i) then EndedRow(s, s', i, now)
           else SameRow(s, s', i)
    case DoConfirm(_) =>
      && s' == s.(keys := s'.keys, blockedAt := None) && |s'.keys| == |s.keys|
      && forall i: nat :: i < |s.keys| ==>
           if IsPending(s, i) then s'.keys[i] == s.keys[i].(confirmedAt := Some(now)) else SameRow(s, s', i)
    case DoCancelPending =>
      && s' == s.(keys := s'.keys, blockedAt := None) && |s'.keys| == |s.keys|
      && forall i: nat :: i < |s.keys| ==> if IsPending(s, i) then EndedRow(s, s', i, now) else SameRow(s, s', i)
    case DoDisable =>
      && s' == s.(keys := s'.keys, enabled := false) && |s'.keys| == |s.keys|
      && forall i: nat :: i < |s.keys| ==>
           if s.keys[i].status.Revoked? then s'.keys[i] == s.keys[i].(revealStored := false) else EndedRow(s, s', i, now)
    case DoUpdatePolicy(auto, interval, services) =>
      var newAuto, newInterval := NewAuto(s, auto), NewInterval(s, interval);
      && s' == s.(keys := s'.keys, autoRotation := newAuto, interval := newInterval,
                  blockedAt := if newAuto || newInterval.None? then None else s.blockedAt)
      && |s'.keys| == |s.keys|
      && forall i: nat :: i < |s.keys| ==>
           if Withdrawn(s.keys[i], auto, now) then EndedRow(s, s', i, now)
           else if IsActive(s, i) && newInterval != s.interval then s'.keys[i] == s.keys[i].(expiresAt := LifetimeEnd(now, newInterval))
           else SameRow(s, s', i)
  }

  // ---------------------------------------------------------------------------
  // Rows of a slot

  // The row that a lookup by status finds is the only one of that status.
  lemma Finds(s: Slot, now: Time)
    requires SlotInv(s, now) && s.enabled
    ensures Find(s.keys, Active).Some?
    ensures forall i: nat :: IsActive(s, i) <==> Find(s.keys, Active) == Some(i)
    ensures forall i: nat :: IsPending(s, i) <==> Find(s.keys, Pending) == Some(i)
  {
    hide Chained, LastLink;
    var a: nat :| Anchored(s.keys, a);
  }

  lemma CutRows(keys: seq<Key>, status: KeyStatus, now: Time)
    ensures var c := Cut(keys, status, now);
      && |c| == |keys|
      && forall i :: 0 <= i < |keys| ==> if Find(keys, status) == Some(i) then Ended(keys[i], c[i], now) else c[i] == keys[i]
  {
  }

  lemma RotateNowExact(s: Slot, now: Time, id: nat)
    requires SlotInv(s, now) && s.enabled
    ensures RotateNow(s, now, id).Ok? <==> Acceptable(s, DoRotateNow, now)
    ensures RotateNow(s, now, id).Ok? ==> Effect(s, RotateNow(s, now, id).value, DoRotateNow, now, id)
  {
    Finds(s, now);
    CutPending(s.keys, now);
    CutRows(s.keys, Pending, now);
    CutRows(Cut(s.keys, Pending, now), Active, now);
    hide SlotInv, KeysInv, Cut, Find;
    if RotateNow(s, now, id).Ok? { RotatedEffect(s, now, id); }
    hide Effect;
  }

  lemma RotatedEffect(s: Slot, now: Time, id: nat)
    requires RotateNow(s, now, id).Ok? && s.enabled
    requires Find(s.keys, Active).Some?
    requires forall i: nat :: IsActive(s, i) <==> Find(s.keys, Active) == Some(i)
    requires forall i: nat :: IsPending(s, i) <==> Find(s.keys, Pending) == Some(i)
    requires var c := Cut(Cut(s.keys, Pending, now), Active, now);
      |c| == |s.keys| && forall i :: 0 <= i < |s.keys| ==> if s.keys[i].status.Revoked? then c[i] == s.keys[i] else Ended(s.keys[i], c[i], now)
    ensures Effect(s, RotateNow(s, now, id).value, DoRotateNow, now, id)
  {
    hide Cut, Find, Ended;
    var p, a := Find(s.keys, Pending), Find(s.keys, Active).value;
    var from := if p.Some? then p.value else a;
    assert IsPending(s, from) || (IsActive(s, from) && NothingPending(s));
  }

  lemma PrepareRotationExact(s: Slot, now: Time, id: nat, at: Time, inline: bool, trigger: Trigger)
    requires SlotInv(s, now) && s.enabled
    ensures Perform(s, DoPrepareRotation(at, inline, trigger), now, id).Ok? <==> Acceptable(s, DoPrepareRotation(at, inline, trigger), now)
    ensures Perform(s, DoPrepareRotation(at, inline, trigger), now, id).Ok? ==>
      Effect(s, PrepareRotation(s, now, id, at, inline, trigger).value, DoPrepareRotation(at, inline, trigger), now, id)
  {
    Finds(s, now);
    hide SlotInv, Find;
  }

  lemma ActivatePendingExact(s: Slot, now: Time, id: nat)
    requires SlotInv(s, now) && s.enabled
    ensures ActivatePending(s, now).Ok? <==> Acceptable(s, DoActivatePending, now)
    ensures ActivatePending(s, now).Ok? ==> Effect(s, ActivatePending(s, now).value, DoActivatePending, now, id)
  {
    Finds(s, now);
    CutRows(s.keys, Active, now);
    hide SlotInv, Find, Cut;
    if Find(s.keys, Pending).Some? { assert IsPending(s, Find(s.keys, Pending).value); }
  }

  lemma ConfirmExact(s: Slot, now: Time, id: nat, key: nat)
    requires SlotInv(s, now) && s.enabled
    ensures Confirm(s, now, key, false).Ok? <==> Acceptable(s, DoConfirm(key), now)
    ensures Confirm(s, now, key, false).Ok? ==> Effect(s, Confirm(s, now, key, false).value, DoConfirm(key), now, id)
  {
    Finds(s, now);
    hide SlotInv, Find;
    if Find(s.keys, Pending).Some? { assert IsPending(s, Find(s.keys, Pending).value); }
  }

  lemma CancelPendingExact(s: Slot, now: Time, id: nat)
    requires SlotInv(s, now) && s.enabled
    ensures CancelPending(s, now).Ok? <==> Acceptable(s, DoCancelPending, now)
    ensures CancelPending(s, now).Ok? ==> Effect(s, CancelPending(s, now).value, DoCancelPending, now, id)
  {
    Finds(s, now);
    CutRows(s.keys, Pending, now);
    hide SlotInv, Find, Cut;
    if Find(s.keys, Pending).Some? { assert IsPending(s, Find(s.keys, Pending).value); }
  }

  lemma CancelAutomaticExact(s: Slot, now: Time)
    requires SlotInv(s, now) && s.enabled
    ensures var s' := CancelAutomatic(s, now);
      && s' == s.(keys := s'.keys) && |s'.keys| == |s.keys|
      && forall i: nat :: i < |s.keys| ==>
           if Withdrawn(s.keys[i], Some(false), now) then EndedRow(s, s', i, now) else SameRow(s, s', i)
  {
    Finds(s, now);
    CutRows(s.keys, Pending, now);
    hide SlotInv, Find, Cut;
  }

  // The slot with nothing withdrawn, or with what switching off withdraws.
  ghost predicate Cleared(s: Slot, s1: Slot, auto: Option<bool>, now: Time) {
    && s1 == s.(keys := s1.keys) && |s1.keys| == |s.keys|
    && forall i: nat :: i < |s.keys| ==>
         if Withdrawn(s.keys[i], auto, now) then EndedRow(s, s1, i, now) else SameRow(s, s1, i)
  }

  lemma RetuneExact(s: Slot, now: Time, auto: bool, interval: Option<int>)
    requires SlotInv(s, now) && s.enabled
    ensures Retune(s, now, auto, interval).Ok? <==>
      interval == s.interval || (NothingPending(s) && forall i: nat :: IsActive(s, i) ==> Alive(s.keys[i], now))
    ensures Retune(s, now, auto, interval).Ok? ==>
      var s' := Retune(s, now, auto, interval).value;
      && s' == s.(keys := s'.keys, autoRotation := auto, interval := interval,
                  blockedAt := if auto || interval.None? then None else s.blockedAt)
      && |s'.keys| == |s.keys|
      && forall i: nat :: i < |s.keys| ==>
           if IsActive(s, i) && interval != s.interval then s'.keys[i] == s.keys[i].(expiresAt := LifetimeEnd(now, interval))
           else SameRow(s, s', i)
  {
    Finds(s, now);
    hide SlotInv, Find;
  }

  lemma ClearedFirst(s: Slot, now: Time, auto: Option<bool>) returns (s1: Slot)
    requires SlotInv(s, now) && s.enabled
    ensures s1 == (if auto == Some(false) then CancelAutomatic(s, now) else s)
    ensures Cleared(s, s1, auto, now) && SlotInv(s1, now)
    ensures NothingPending(s1) <==> forall i: nat :: IsPending(s, i) ==> Withdrawn(s.keys[i], auto, now)
    ensures forall i: nat :: IsActive(s1, i) <==> IsActive(s, i)
    ensures forall i: nat :: IsActive(s, i) ==> s1.keys[i] == s.keys[i]
  {
    s1 := if auto == Some(false) then CancelAutomatic(s, now) else s;
    CancelAutomaticExact(s, now);
    if auto == Some(false) { CancelAutomaticInv(s, now); }
    hide SlotInv, CancelAutomatic;
    forall i: nat | i < |s.keys|
      ensures if Withdrawn(s.keys[i], auto, now) then EndedRow(s, s1, i, now) else SameRow(s, s1, i)
      ensures IsPending(s1, i) <==> IsPending(s, i) && !Withdrawn(s.keys[i], auto, now)
    {
    }
  }

  lemma UpdatePolicyExact(s: Slot, now: Time, id: nat, auto: Option<bool>, interval: Option<Option<int>>, services: bool)
    requires SlotInv(s, now) && s.enabled
    ensures UpdatePolicy(s, now, auto, interval, services).Ok? <==> Acceptable(s, DoUpdatePolicy(auto, interval, services), now)
    ensures UpdatePolicy(s, now, auto, interval, services).Ok? ==>
      Effect(s, UpdatePolicy(s, now, auto, interval, services).value, DoUpdatePolicy(auto, interval, services), now, id)
  {
    hide Effect, Cleared, Withdrawn, Alive, LifetimeEnd;
    var s1 := ClearedFirst(s, now, auto);
    ClearedPolicy(s, s1, auto, now);
    var newAuto, newInterval := NewAuto(s, auto), NewInterval(s, interval);
    RetuneExact(s1, now, newAuto, newInterval);
    UpdateIsRetune(s, now, auto, interval, services, s1);
    hide SlotInv, UpdatePolicy, Retune, CancelAutomatic;
    if UpdatePolicy(s, now, auto, interval, services).Ok? {
      ClearedThenTuned(s, s1, UpdatePolicy(s, now, auto, interval, services).value, now, auto, interval, services, id);
    }
  }

  lemma ClearedPolicy(s: Slot, s1: Slot, auto: Option<bool>, now: Time)
    requires Cleared(s, s1, auto, now)
    ensures s1.enabled == s.enabled && s1.interval == s.interval && s1.autoRotation == s.autoRotation && s1.blockedAt == s.blockedAt
  {
  }

  lemma UpdateIsRetune(s: Slot, now: Time, auto: Option<bool>, interval: Option<Option<int>>, services: bool, s1: Slot)
    requires s1 == (if auto == Some(false) then CancelAutomatic(s, now) else s)
    ensures var newAuto, newInterval := NewAuto(s, auto), NewInterval(s, interval);
      var r := UpdatePolicy(s, now, auto, interval, services);
      && (r.Ok? <==>
            && (auto.Some? || interval.Some? || services)
            && (interval.Some? && interval.value.Some? ==> 1 <= interval.value.value <= 3650)
            && (newInterval.None? ==> !newAuto) && Retune(s1, now, newAuto, newInterval).Ok?)
      && (r.Ok? ==> r == Retune(s1, now, newAuto, newInterval))
  {
    hide CancelAutomatic, Retune;
  }

  lemma ClearedThenTuned(s: Slot, s1: Slot, s': Slot, now: Time, auto: Option<bool>, interval: Option<Option<int>>, services: bool, id: nat)
    requires Cleared(s, s1, auto, now) && forall i: nat :: IsActive(s1, i) <==> IsActive(s, i)
    requires var newAuto, newInterval := NewAuto(s, auto), NewInterval(s, interval);
      && s' == s1.(keys := s'.keys, autoRotation := newAuto, interval := newInterval,
                   blockedAt := if newAuto || newInterval.None? then None else s1.blockedAt)
      && |s'.keys| == |s1.keys|
      && forall i: nat :: i < |s1.keys| ==>
           if IsActive(s1, i) && newInterval != s1.interval then s'.keys[i] == s1.keys[i].(expiresAt := LifetimeEnd(now, newInterval))
           else SameRow(s1, s', i)
    ensures Effect(s, s', DoUpdatePolicy(auto, interval, services), now, id)
  {
    hide LifetimeEnd, Alive;
  }

  // ---------------------------------------------------------------------------
  // The whole

  // An enabled slot takes an operation exactly when it is acceptable, and then has its effect.
  lemma PerformExact(s: Slot, op: SlotOp, now: Time, id: nat)
    requires SlotInv(s, now) && s.enabled
    ensures Perform(s, op, now, id).Ok? <==> Acceptable(s, op, now)
    ensures Perform(s, op, now, id).Ok? ==> Effect(s, Perform(s, op, now, id).value, op, now, id)
  {
    match op
    case DoRotateNow => RotateNowExact(s, now, id);
    case DoPrepareRotation(at, inline, trigger) => PrepareRotationExact(s, now, id, at, inline, trigger);
    case DoActivatePending => ActivatePendingExact(s, now, id);
    case DoConfirm(key) => ConfirmExact(s, now, id, key);
    case DoCancelPending => CancelPendingExact(s, now, id);
    case DoUpdatePolicy(auto, interval, services) => UpdatePolicyExact(s, now, id, auto, interval, services);
    case DoDisable =>
  }

  // ---------------------------------------------------------------------------
  // Requests

  ghost predicate Serves(w: World, pid: nat) {
    pid in w.projects && w.projects[pid].activatedAt.Some? && w.projects[pid].readyAt.Some?
  }

  // In every state that keeps the invariant a slot request is taken exactly for an enabled slot
  // of a project whose gateway is ready, when it is acceptable; it changes that slot as the
  // operation does, counts one more version, and touches nothing else.
  lemma OnSlotExact(w: World, now: Time, pid: nat, sid: nat, op: SlotOp)
    requires WorldInv(w, now)
    ensures Apply(w, OnSlot(pid, sid, op), now).Ok? <==>
      && Serves(w, pid) && sid in w.slots && w.slots[sid].project == pid && w.slots[sid].enabled
      && Acceptable(w.slots[sid], op, now)
    ensures Apply(w, OnSlot(pid, sid, op), now).Ok? ==>
      var w' := Apply(w, OnSlot(pid, sid, op), now).value;
      && w'.projects == w.projects[pid := w.projects[pid].(version := w.projects[pid].version + 1)]
      && sid in w'.slots && w'.slots == w.slots[sid := w'.slots[sid]]
      && Effect(w.slots[sid], w'.slots[sid], op, now, w.nextId)
  {
    hide WorldInv, SlotInv, Perform, Acceptable, Effect;
    if Serves(w, pid) && sid in w.slots && w.slots[sid].project == pid && w.slots[sid].enabled {
      ActiveSlotInv(w, sid, now);
      PerformExact(w.slots[sid], op, now, w.nextId);
    }
    PastIsUnacceptable(w, sid, op, now);
  }

  lemma ActiveSlotInv(w: World, sid: nat, now: Time)
    requires WorldInv(w, now) && sid in w.slots && w.slots[sid].project in w.projects
    requires w.projects[w.slots[sid].project].activatedAt.Some?
    ensures SlotInv(w.slots[sid], now)
  {
    assert SlotOk(w.projects[w.slots[sid].project], w.slots[sid], now);
  }

  lemma PastIsUnacceptable(w: World, sid: nat, op: SlotOp, now: Time)
    ensures op.DoPrepareRotation? && op.activateAt <= now && sid in w.slots ==> !Acceptable(w.slots[sid], op, now)
  {
  }

  // The first two slots of a project, with one key each.
  ghost predicate TwoFirst(w: World, w': World, pid: nat, a: nat, b: nat) {
    && a !in w.slots && b !in w.slots && a != b && a in w'.slots && b in w'.slots
    && w'.slots == w.slots[a := w'.slots[a]][b := w'.slots[b]]
    && pid in w.projects && |w'.slots[a].keys| == 1 && |w'.slots[b].keys| == 1
    && var auto := w.projects[pid].autoRotation;
       && w'.slots[a] == Slot(pid, "default-publishable", true, auto, Some(90), None, w'.slots[a].keys)
       && w'.slots[b] == Slot(pid, "default-secret", true, auto, Some(90), None, w'.slots[b].keys)
  }

  // Nothing of opaque keys has happened in the project.
  ghost predicate Untouched(w: World, pid: nat) {
    && pid in w.projects && !w.projects[pid].tokenSet && w.projects[pid].preparedAt.None?
    && forall sid :: sid in w.slots ==> w.slots[sid].project != pid
  }

  lemma OwnedIds(w: World, now: Time)
    requires WorldInv(w, now)
    ensures forall sid :: sid in w.slots ==> sid < w.nextId
  {
    forall sid | sid in w.slots
      ensures sid < w.nextId
    {
      assert Owned(w, sid);
    }
  }

  lemma NoneOf(w: World, pid: nat)
    ensures SlotsOf(w, pid) == {} <==> forall sid :: sid in w.slots ==> w.slots[sid].project != pid
  {
    assert forall sid :: sid in SlotsOf(w, pid) <==> sid in w.slots && w.slots[sid].project == pid;
  }

  // A new project is bootstrapped with two active keys of ninety days.
  lemma BootstrapExact(w: World, now: Time, pid: nat)
    requires WorldInv(w, now)
    ensures Apply(w, Bootstrap(pid), now).Ok? <==>
      Untouched(w, pid) && w.projects[pid].activatedAt.None? && w.projects[pid].readyAt.None?
    ensures Apply(w, Bootstrap(pid), now).Ok? ==>
      var w' := Apply(w, Bootstrap(pid), now).value;
      && w'.projects == w.projects[pid := w.projects[pid].(version := w.projects[pid].version + 2, tokenSet := true,
           preparedAt := Some(now), activatedAt := Some(now), readyAt := Some(now))]
      && exists a, b :: TwoFirst(w, w', pid, a, b)
           && (forall x :: x == a || x == b ==>
                 w'.slots[x].keys[0] == Key(w'.slots[x].keys[0].id, Active, None, Some(now + 90 * 24 * 60 * 60 * 1_000_000), Some(now),
                                            None, None, None, None, Initial, true))
  {
    OwnedIds(w, now);
    NoneOf(w, pid);
    hide WorldInv;
    if Apply(w, Bootstrap(pid), now).Ok? {
      var w' := Apply(w, Bootstrap(pid), now).value;
      var a, b := w.nextId, w.nextId + 2;
      assert TwoFirst(w, w', pid, a, b);
    }
  }

  // A migration begins with two keys that wait, and expire a week after ninety days.
  lemma PrepareMigrationExact(w: World, now: Time, pid: nat)
    requires WorldInv(w, now)
    ensures Apply(w, PrepareMigration(pid), now).Ok? <==> Untouched(w, pid) && w.projects[pid].activatedAt.None?
    ensures Apply(w, PrepareMigration(pid), now).Ok? ==>
      var w' := Apply(w, PrepareMigration(pid), now).value;
      && w'.projects == w.projects[pid := w.projects[pid].(version := w.projects[pid].version + 2, tokenSet := true, preparedAt := Some(now))]
      && exists a, b :: TwoFirst(w, w', pid, a, b)
           && (forall x :: x == a || x == b ==>
                 w'.slots[x].keys[0] == Key(w'.slots[x].keys[0].id, Pending, None, Some(now + 97 * 24 * 60 * 60 * 1_000_000), None,
                                            None, None, None, None, Initial, true))
  {
    OwnedIds(w, now);
    NoneOf(w, pid);
    hide WorldInv;
    if Apply(w, PrepareMigration(pid), now).Ok? {
      var w' := Apply(w, PrepareMigration(pid), now).value;
      var a, b := w.nextId, w.nextId + 2;
      assert TwoFirst(w, w', pid, a, b);
    }
  }

  ghost predicate OneMoreSlot(w: World, w': World, a: nat, s: Slot) { a !in w.slots && w'.slots == w.slots[a := s] }

  // A further slot needs a name of its own, and a lifetime if it is to rotate by itself.
  lemma CreateSlotExact(w: World, now: Time, pid: nat, name: string, auto: Option<bool>, interval: Option<int>)
    requires WorldInv(w, now)
    ensures var wanted := if pid in w.projects && auto.None? then w.projects[pid].autoRotation else auto == Some(true);
      var r := Apply(w, CreateSlot(pid, name, auto, interval), now);
      && (r.Ok? <==>
            && Serves(w, pid) && (interval.Some? ==> 1 <= interval.value <= 3650) && (wanted ==> interval.Some?)
            && forall sid :: sid in w.slots && w.slots[sid].project == pid ==> w.slots[sid].name != name)
      && (r.Ok? ==>
            && r.value.projects == w.projects[pid := w.projects[pid].(version := w.projects[pid].version + 1)]
            && exists a: nat, id: nat :: OneMoreSlot(w, r.value, a, Slot(pid, name, true, wanted, interval, None,
                 [Key(id, Active, None, LifetimeEnd(now, interval), Some(now), None, None, None, None, Manual, true)])))
  {
    OwnedIds(w, now);
    hide WorldInv;
    assert name in NamesOf(w, SlotsOf(w, pid)) <==> exists sid :: sid in w.slots && w.slots[sid].project == pid && w.slots[sid].name == name;
    hide NamesOf;
    var r := Apply(w, CreateSlot(pid, name, auto, interval), now);
    if r.Ok? {
      var wanted := if pid in w.projects && auto.None? then w.projects[pid].autoRotation else auto == Some(true);
      assert OneMoreSlot(w, r.value, w.nextId, Slot(pid, name, true, wanted, interval, None,
        [Key(w.nextId + 1, Active, None, LifetimeEnd(now, interval), Some(now), None, None, None, None, Manual, true)]));
    }
  }

  // A stored reveal of a key that has not ended can be claimed; the first claim is stamped.
  lemma RevealExact(w: World, now: Time, pid: nat, sid: nat, row: nat)
    ensures Apply(w, RevealKey(pid, sid, row), now).Ok? <==>
      && sid in w.slots && w.slots[sid].project == pid && row < |w.slots[sid].keys|
      && w.slots[sid].keys[row].revealStored && !w.slots[sid].keys[row].status.Revoked?
    ensures Apply(w, RevealKey(pid, sid, row), now).Ok? ==>
      var s, k := w.slots[sid], w.slots[sid].keys[row];
      Apply(w, RevealKey(pid, sid, row), now).value
      == w.(slots := w.slots[sid := s.(keys := s.keys[row := k.(revealedAt := if k.revealedAt.Some? then k.revealedAt else Some(now))])])
  {
    if sid in w.slots && row < |w.slots[sid].keys| && w.slots[sid].keys[row].revealedAt.Some? {
      var s, k := w.slots[sid], w.slots[sid].keys[row];
      assert s.keys[row := k] == s.keys;
    }
  }

  // Every machine-made replacement of the project not yet in use ends, and nothing else happens.
  lemma CancelAllExact(w: World, now: Time, pid: nat)
    requires WorldInv(w, now) && pid in w.projects && w.projects[pid].activatedAt.Some?
    ensures Apply(w, CancelProjectAutomatic(pid), now).Ok? ==>
      var w' := Apply(w, CancelProjectAutomatic(pid), now).value;
      && w'.projects == w.projects[pid := w.projects[pid].(version := w.projects[pid].version + 1)]
      && w'.slots.Keys == w.slots.Keys
      && forall sid :: sid in w.slots ==>
           if w.slots[sid].project == pid then Cleared(w.slots[sid], w'.slots[sid], Some(false), now)
           else w'.slots[sid] == w.slots[sid]
    ensures Apply(w, CancelProjectAutomatic(pid), now).Ok? <==>
      exists sid, i: nat :: sid in w.slots && w.slots[sid].project == pid && i < |w.slots[sid].keys|
        && Withdrawn(w.slots[sid].keys[i], Some(false), now)
  {
    forall sid | sid in w.slots && w.slots[sid].project == pid
      ensures Cleared(w.slots[sid], CancelAutomatic(w.slots[sid], now), Some(false), now)
      ensures CancelAutomatic(w.slots[sid], now) == w.slots[sid] <==>
        forall i: nat :: i < |w.slots[sid].keys| ==> !Withdrawn(w.slots[sid].keys[i], Some(false), now)
    {
      assert SlotOk(w.projects[pid], w.slots[sid], now);
      ClearedSlot(w.slots[sid], now);
    }
    hide WorldInv, CancelAutomatic, Cleared, Withdrawn;
    forall sid ensures sid in SlotsOf(w, pid) <==> sid in w.slots && w.slots[sid].project == pid {}
    hide SlotsOf;
  }

  lemma ClearedSlot(s: Slot, now: Time)
    requires SlotInv(s, now)
    ensures Cleared(s, CancelAutomatic(s, now), Some(false), now)
    ensures CancelAutomatic(s, now) == s <==> forall i: nat :: i < |s.keys| ==> !Withdrawn(s.keys[i], Some(false), now)
  {
    var s' := CancelAutomatic(s, now);
    if s.enabled {
      CancelAutomaticExact(s, now);
    } else {
      assert s' == s;
    }
    hide SlotInv, CancelAutomatic;
    if exists i: nat :: i < |s.keys| && Withdrawn(s.keys[i], Some(false), now) {
      var i: nat :| i < |s.keys| && Withdrawn(s.keys[i], Some(false), now);
      assert s'.keys[i] != s.keys[i];
    } else {
      assert s'.keys == s.keys;
    }
  }
}
