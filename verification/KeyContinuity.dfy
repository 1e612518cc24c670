// Service without gaps: what one request does to a slot, and which requests can leave a slot
// without an accepted key, at the moment they run and later.
module KeyContinuity {
  import opened Prelude
  import opened KeySlots
  import opened KeySlotProofs
  import opened KeyVisibility
  import opened KeyWorld
  import opened KeyRuns

  // ---------------------------------------------------------------------------
  // What one request does to one slot of an active project

  datatype Touch = Untouched | ByOp(op: SlotOp) | ByCancel | ByReveal(row: nat) | ByBlock | BySweep

  // The only ways in which a request reaches the slot.
  function TouchOf(w: World, r: Request, sid: nat): Touch
    requires sid in w.slots
  {
    match r
    case OnSlot(_, x, op) => if x == sid then ByOp(op) else Untouched
    case CancelProjectAutomatic(pid) => if w.slots[sid].project == pid then ByCancel else Untouched
    case RevealKey(_, x, row) => if x == sid then ByReveal(row) else Untouched
    case BlockSlot(_, x) => if x == sid then ByBlock else Untouched
    case SweepReveals => BySweep
    case _ => Untouched
  }

  ghost predicate Touched(s: Slot, s': Slot, touch: Touch, now: Time, id: nat) {
    match touch
    case Untouched => s' == s
    case ByOp(op) => s.enabled && Perform(s, op, now, id) == Ok(s')
    case ByCancel => s' == CancelAutomatic(s, now)
    case ByReveal(row) => row < |s.keys| && ClaimReveal(s, now, row) == Ok(s')
    case ByBlock => s' == s.(blockedAt := Some(now))
    case BySweep => s' == PurgeReveals(s, now)
  }

  // The requests that prepare, migrate and activate projects pass active slots by.
  predicate ProjectLevel(r: Request) {
    !(r.OnSlot? || r.CancelProjectAutomatic? || r.RevealKey? || r.BlockSlot? || r.SweepReveals?)
  }

  lemma ProjectLevelPassesBy(w: World, r: Request, now: Time, sid: nat)
    requires Started(w, sid) && sid < w.nextId && ProjectLevel(r)
    ensures Started(Exec(w, r, now), sid) && Exec(w, r, now).slots[sid] == w.slots[sid]
  {
    hide ActivateInitial, NewSlot, PreparedRows, JoinedRows, RowNames, Confirm;
    match r
    case ActivatePrepared(pid) => MigrationPassesBy(w, now, pid, sid);
    case AbortMigration(pid) => MigrationPassesBy(w, now, pid, sid);
    case ConfirmPrepared(pid, x, key) => MigrationPassesBy(w, now, pid, sid);
    case Bootstrap(pid) => NewSlotsPassBy(w, now, pid, sid);
    case PrepareMigration(pid) => NewSlotsPassBy(w, now, pid, sid);
    case StartCutover(pid) => hide ValidatePrepared;
    case _ =>
  }

  lemma MigrationPassesBy(w: World, now: Time, pid: nat, sid: nat)
    requires Started(w, sid)
    ensures ActivatePreparedIn(w, now, pid).Ok? ==>
      var w' := ActivatePreparedIn(w, now, pid).value; Started(w', sid) && w'.slots[sid] == w.slots[sid]
    ensures AbortMigrationIn(w, now, pid).Ok? ==>
      var w' := AbortMigrationIn(w, now, pid).value; Started(w', sid) && w'.slots[sid] == w.slots[sid]
    ensures forall x: nat, key: nat :: ConfirmPreparedIn(w, now, pid, x, key).Ok? ==>
      var w' := ConfirmPreparedIn(w, now, pid, x, key).value; Started(w', sid) && w'.slots[sid] == w.slots[sid]
  {
    hide ActivateInitial, PreparedRows, JoinedRows, RowNames, Confirm;
  }

  lemma NewSlotsPassBy(w: World, now: Time, pid: nat, sid: nat)
    requires Started(w, sid) && sid < w.nextId
    ensures BootstrapIn(w, now, pid).Ok? ==>
      var w' := BootstrapIn(w, now, pid).value; Started(w', sid) && w'.slots[sid] == w.slots[sid]
    ensures PrepareMigrationIn(w, now, pid).Ok? ==>
      var w' := PrepareMigrationIn(w, now, pid).value; Started(w', sid) && w'.slots[sid] == w.slots[sid]
  {
    hide NewSlot, NewActive, NewPending;
  }

  // A request leaves the slot alone, or touches it in that way.
  lemma OneTouch(w: World, r: Request, now: Time, sid: nat)
    requires WorldInv(w, now) && Started(w, sid)
    ensures Started(Exec(w, r, now), sid) && Exec(w, r, now).slots[sid].project == w.slots[sid].project
    ensures Apply(w, r, now).Err? ==> Exec(w, r, now).slots[sid] == w.slots[sid]
    ensures Apply(w, r, now).Ok? ==> Touched(w.slots[sid], Exec(w, r, now).slots[sid], TouchOf(w, r, sid), now, w.nextId)
  {
    assert Owned(w, sid);
    hide WorldInv, SlotInv;
    if ProjectLevel(r) {
      ProjectLevelPassesBy(w, r, now, sid);
      hide Apply, Exec;
    } else {
      SlotLevelTouches(w, r, now, sid);
    }
  }

  lemma SlotLevelTouches(w: World, r: Request, now: Time, sid: nat)
    requires Started(w, sid) && !ProjectLevel(r)
    ensures Started(Exec(w, r, now), sid) && Exec(w, r, now).slots[sid].project == w.slots[sid].project
    ensures Apply(w, r, now).Err? ==> Exec(w, r, now).slots[sid] == w.slots[sid]
    ensures Apply(w, r, now).Ok? ==> Touched(w.slots[sid], Exec(w, r, now).slots[sid], TouchOf(w, r, sid), now, w.nextId)
  {
    match r
    case OnSlot(pid, x, op) =>
      if Apply(w, r, now).Ok? { PerformRows(w.slots[x], op, now, w.nextId); }
      hide Perform;
    case _ => hide Perform;
  }

  // ---------------------------------------------------------------------------
  // At the moment a request runs

  ghost predicate Served(w: World, sid: nat, t: Time) { exists row: nat :: Admits(w, sid, row, t) }

  lemma ServedIffServing(w: World, now: Time, sid: nat, t: Time)
    requires WorldInv(w, now) && Started(w, sid)
    ensures Served(w, sid, t) <==> Serving(w.slots[sid], t).Some?
  {
    var s := w.slots[sid];
    assert SlotOk(w.projects[s.project], s, now);
    forall row: nat | row < |s.keys|
      ensures Admits(w, sid, row, t) <==> Serving(s, t) == Some(row)
    {
      AcceptedIffServing(s, now, row, t);
    }
    hide SlotInv;
    if Serving(s, t).Some? { assert Admits(w, sid, Serving(s, t).value, t); }
  }

  lemma TouchServes(s: Slot, s': Slot, touch: Touch, now: Time, id: nat)
    requires SlotInv(s, now) && Serving(s, now).Some? && Touched(s, s', touch, now, id)
    ensures Serving(s', now).Some? <==> touch != ByOp(DoDisable)
  {
    hide SlotInv, Perform, CancelAutomatic, ClaimReveal, PurgeReveals;
    match touch
    case ByOp(op) => OnlyDisableInterrupts(s, op, now, id);
    case ByCancel => CancelServes(s, s', now);
    case ByReveal(row) =>
      RevealTouches(s, s', touch, now, id);
      SameServing(s, s', now);
    case BySweep =>
      RevealTouches(s, s', touch, now, id);
      SameServing(s, s', now);
    case _ => ServingRows(s, s', now);
  }

  // Rows that differ at most in what is known of their reveal.
  ghost predicate SameButReveal(s: Slot, s': Slot) {
    && s'.enabled == s.enabled && s'.interval == s.interval && |s'.keys| == |s.keys|
    && forall i :: 0 <= i < |s.keys| ==>
         s'.keys[i] == s.keys[i].(revealStored := s'.keys[i].revealStored, revealedAt := s'.keys[i].revealedAt)
  }

  lemma RevealTouches(s: Slot, s': Slot, touch: Touch, now: Time, id: nat)
    requires (touch.ByReveal? || touch.BySweep?) && Touched(s, s', touch, now, id)
    ensures SameButReveal(s, s')
  {
  }

  lemma SameServing(s: Slot, s': Slot, t: Time)
    requires SameButReveal(s, s')
    ensures Serving(s', t) == Serving(s, t)
  {
    FindSameStatus(s.keys, s'.keys);
    hide Find;
  }

  lemma {:induction false} FindSameStatus(a: seq<Key>, b: seq<Key>)
    requires |a| == |b| && forall i :: 0 <= i < |a| ==> a[i].status == b[i].status
    ensures forall st: KeyStatus :: Find(a, st) == Find(b, st)
  {
    if a != [] { FindSameStatus(a[..|a| - 1], b[..|b| - 1]); }
  }

  lemma DisablingTouch(w: World, r: Request, sid: nat)
    requires sid in w.slots
    ensures TouchOf(w, r, sid) == ByOp(DoDisable) <==> r.OnSlot? && r.sid == sid && r.op.DoDisable?
  {
  }

  // Of all the requests there are, in every reachable state, only disabling a slot takes its
  // service away at the moment it runs.
  lemma OnlyDisablingInterrupts(events: seq<Event>, start: Time, now: Time, r: Request, sid: nat)
    requires Clocked(events, start, now) && Served(Run(EMPTY, events), sid, now)
    ensures var w := Run(EMPTY, events);
      Served(Exec(w, r, now), sid, now)
      <==> !(r.OnSlot? && r.sid == sid && r.op.DoDisable? && Apply(w, r, now).Ok?)
  {
    var w := Run(EMPTY, events);
    RunInv(EMPTY, events, start, now);
    StepKeeps(w, r, now);
    OneTouch(w, r, now, sid);
    assert SlotOk(w.projects[w.slots[sid].project], w.slots[sid], now);
    DisablingTouch(w, r, sid);
    hide WorldInv, SlotInv, Exec, Apply, Run, Touched, TouchOf, Serving;
    ServedIffServing(w, now, sid, now);
    ServedIffServing(Exec(w, r, now), now, sid, now);
    if Apply(w, r, now).Ok? {
      TouchServes(w.slots[sid], Exec(w, r, now).slots[sid], TouchOf(w, r, sid), now, w.nextId);
    }
  }

  // ---------------------------------------------------------------------------
  // How long service is secured

  // A lifetime policy that gives less than the other one.
  predicate Shorter(a: Option<int>, b: Option<int>) { a.Some? && (b.None? || a.value < b.value) }

  predicate LastsUntil(k: Key, until: Option<Time>) {
    k.expiresAt.None? || (until.Some? && until.value <= k.expiresAt.value)
  }

  // Rows that carry service at least until the lifetime begun at `base` under `interval`
  // ends: the active key does, and what may replace it begins later under no shorter policy.
  predicate CarriesOn(k: Key, base: Time, interval: Option<int>, current: Option<int>) {
    && (k.status.Active? ==> LastsUntil(k, ExpiryFrom(base, interval)))
    && (k.status.Pending? ==>
          k.activateAt.Some? && base <= k.activateAt.value && k.expiresAt == ExpiryFrom(k.activateAt.value, current))
  }

  ghost predicate Secured(s: Slot, base: Time, interval: Option<int>, now: Time) {
    && SlotInv(s, now) && s.enabled && base <= now && !Shorter(s.interval, interval)
    && forall i :: 0 <= i < |s.keys| ==> CarriesOn(s.keys[i], base, interval, s.interval)
  }

  // A confirmed replacement that waits to take over at `base`.
  ghost predicate Promised(s: Slot, base: Time, interval: Option<int>, now: Time) {
    && SlotInv(s, now) && s.enabled && s.interval == interval
    && Find(s.keys, Pending).Some?
    && var k := s.keys[Find(s.keys, Pending).value];
       k.confirmedAt.Some? && k.activateAt == Some(base) && k.expiresAt == ExpiryFrom(base, interval)
  }

  ghost predicate Kept(s: Slot, base: Time, interval: Option<int>, now: Time) {
    Secured(s, base, interval, now) || Promised(s, base, interval, now)
  }

  predicate Within(t: Time, until: Option<Time>) { until.None? || t < until.value }

  lemma KeptServes(s: Slot, base: Time, interval: Option<int>, now: Time, t: Time)
    requires Kept(s, base, interval, now) && now <= t && Within(t, ExpiryFrom(base, interval))
    ensures Serving(s, t).Some?
  {
    if Promised(s, base, interval, now) {
      Handover(s, now, t);
    } else {
      var a := FoundActive(s, now);
      assert CarriesOn(s.keys[a], base, interval, s.interval);
      if Find(s.keys, Pending).Some? {
        assert CarriesOn(s.keys[Find(s.keys, Pending).value], base, interval, s.interval);
      }
    }
  }

  lemma KeptLater(s: Slot, base: Time, interval: Option<int>, now: Time, later: Time)
    requires Kept(s, base, interval, now) && now <= later
    ensures Kept(s, base, interval, later)
  {
  }

  // ---------------------------------------------------------------------------
  // What can break the promise

  // Disabling the slot, shortening its lifetime policy, or cancelling its replacement
  // before that is due.
  predicate Breaks(op: SlotOp, at: Time, base: Time, interval: Option<int>) {
    match op
    case DoDisable => true
    case DoCancelPending => at < base
    case DoUpdatePolicy(auto, newInterval, _) =>
      (auto == Some(false) && at < base) || (newInterval.Some? && Shorter(newInterval.value, interval))
    case _ => false
  }

  predicate Disturbs(touch: Touch, at: Time, base: Time, interval: Option<int>) {
    match touch
    case ByOp(op) => Breaks(op, at, base, interval)
    case ByCancel => at < base
    case _ => false
  }

  // An immediate rotation retires every row and adds one that begins now.
  lemma RotatedRows(s: Slot, now: Time, id: nat)
    requires SlotInv(s, now) && s.enabled && RotateNow(s, now, id).Ok?
    ensures var s' := RotateNow(s, now, id).value;
      && s'.enabled && s'.interval == s.interval && |s'.keys| == |s.keys| + 1
      && (forall i :: 0 <= i < |s.keys| ==> s'.keys[i].status.Revoked?)
      && s'.keys[|s.keys|].status.Active? && s'.keys[|s.keys|].expiresAt == ExpiryFrom(now, s.interval)
  {
    CutPending(s.keys, now);
    CutActive(Cut(s.keys, Pending, now), now);
    hide SlotInv, KeysInv;
  }

  lemma RotateNowKept(s: Slot, now: Time, id: nat, base: Time, interval: Option<int>)
    requires Kept(s, base, interval, now) && RotateNow(s, now, id).Ok?
    ensures Secured(RotateNow(s, now, id).value, base, interval, now)
  {
    RotateNowInv(s, now, id);
    RotatedRows(s, now, id);
    assert base <= now;
    hide SlotInv, RotateNow;
  }

  lemma PrepareRotationKept(s: Slot, now: Time, id: nat, at: Time, inline: bool, trigger: Trigger, base: Time, interval: Option<int>)
    requires Kept(s, base, interval, now) && now < at && PrepareRotation(s, now, id, at, inline, trigger).Ok?
    ensures Secured(PrepareRotation(s, now, id, at, inline, trigger).value, base, interval, now)
  {
    PrepareRotationInv(s, now, id, at, inline, trigger);
    hide SlotInv;
  }

  lemma ActivatePendingKept(s: Slot, now: Time, base: Time, interval: Option<int>)
    requires Kept(s, base, interval, now) && ActivatePending(s, now).Ok?
    ensures Secured(ActivatePending(s, now).value, base, interval, now)
  {
    ActivatePendingInv(s, now);
    OnlyLastPending(s.keys, now);
    CutActive(s.keys, now);
    hide SlotInv, KeysInv;
  }

  lemma ConfirmKept(s: Slot, now: Time, id: nat, base: Time, interval: Option<int>)
    requires Kept(s, base, interval, now) && Confirm(s, now, id, false).Ok?
    ensures Kept(Confirm(s, now, id, false).value, base, interval, now)
  {
    ConfirmInv(s, now, id, false);
    hide SlotInv;
  }

  lemma CancelKept(s: Slot, s': Slot, now: Time, base: Time, interval: Option<int>)
    requires Kept(s, base, interval, now) && base <= now
    requires s' == CancelAutomatic(s, now) || CancelPending(s, now) == Ok(s')
    ensures Kept(s', base, interval, now)
  {
    if Promised(s, base, interval, now) {
      hide SlotInv;
      assert s' == s;
    } else if s' != s {
      if CancelPending(s, now) == Ok(s') { CancelPendingInv(s, now); } else { CancelAutomaticInv(s, now); }
      hide SlotInv, Promised;
      var p := Find(s.keys, Pending).value;
      assert s'.keys == s.keys[p := Revoke(s.keys[p], now)];
    }
  }

  // The lifetime restarts at once when the interval changes, and nothing is pending then.
  lemma RestartKept(s: Slot, now: Time, interval': Option<int>, s': Slot, base: Time, interval: Option<int>)
    requires Kept(s, base, interval, now) && RestartLifetime(s, now, interval').Ok? && !Shorter(interval', interval)
    requires interval'.Some? ==> MIN_INTERVAL <= interval'.value <= MAX_INTERVAL
    requires s'.keys == RestartLifetime(s, now, interval').value.keys && s'.enabled && s'.interval == interval'
    requires SlotInv(s', now)
    ensures Kept(s', base, interval, now)
  {
    hide SlotInv;
    if interval' != s.interval {
      assert Find(s.keys, Pending).None?;
      forall i | 0 <= i < |s'.keys|
        ensures CarriesOn(s'.keys[i], base, interval, interval')
      {
        assert CarriesOn(s.keys[i], base, interval, s.interval);
      }
    }
  }

  lemma IntervalStays(s: Slot, now: Time)
    ensures CancelAutomatic(s, now).interval == s.interval && CancelAutomatic(s, now).enabled == s.enabled
  {
  }

  lemma RetunedRows(s: Slot, now: Time, auto: bool, interval: Option<int>)
    ensures var r := Retune(s, now, auto, interval);
      r.Ok? ==> RestartLifetime(s, now, interval).Ok? && r.value.keys == RestartLifetime(s, now, interval).value.keys
                && r.value.interval == interval && r.value.autoRotation == auto && r.value.enabled == s.enabled
  {
  }

  lemma UpdatePolicyKept(s: Slot, now: Time, auto: Option<bool>, newInterval: Option<Option<int>>, services: bool,
                         base: Time, interval: Option<int>)
    requires Kept(s, base, interval, now) && UpdatePolicy(s, now, auto, newInterval, services).Ok?
    requires !Breaks(DoUpdatePolicy(auto, newInterval, services), now, base, interval)
    ensures Kept(UpdatePolicy(s, now, auto, newInterval, services).value, base, interval, now)
  {
    var s' := UpdatePolicy(s, now, auto, newInterval, services).value;
    var s1 := if auto == Some(false) then CancelAutomatic(s, now) else s;
    UpdatePolicyInv(s, now, auto, newInterval, services);
    assert PolicyOk(s') && !Shorter(s.interval, interval);
    RetunedRows(s1, now, s'.autoRotation, s'.interval);
    hide SlotInv, Kept, CancelAutomatic, Retune, RestartLifetime, PolicyOk;
    if auto == Some(false) { CancelKept(s, s1, now, base, interval); }
    IntervalStays(s, now);
    RestartKept(s1, now, s'.interval, s', base, interval);
  }

  lemma RevealKept(s: Slot, s': Slot, now: Time, base: Time, interval: Option<int>)
    requires Kept(s, base, interval, now) && SameButReveal(s, s') && SlotInv(s', now)
    ensures Kept(s', base, interval, now)
  {
    FindSameStatus(s.keys, s'.keys);
    hide SlotInv, Find;
    if Secured(s, base, interval, now) {
      forall i | 0 <= i < |s'.keys|
        ensures CarriesOn(s'.keys[i], base, interval, s'.interval)
      {
        assert CarriesOn(s.keys[i], base, interval, s.interval);
      }
    }
  }

  lemma PerformKept(s: Slot, op: SlotOp, now: Time, id: nat, base: Time, interval: Option<int>)
    requires Kept(s, base, interval, now) && Perform(s, op, now, id).Ok? && !Breaks(op, now, base, interval)
    ensures Kept(Perform(s, op, now, id).value, base, interval, now)
  {
    hide SlotInv, Kept;
    match op
    case DoRotateNow =>
      RotateNowKept(s, now, id, base, interval);
      SecuredIsKept(RotateNow(s, now, id).value, base, interval, now);
    case DoPrepareRotation(at, inline, trigger) =>
      PrepareRotationKept(s, now, id, at, inline, trigger, base, interval);
      SecuredIsKept(PrepareRotation(s, now, id, at, inline, trigger).value, base, interval, now);
    case DoActivatePending =>
      ActivatePendingKept(s, now, base, interval);
      SecuredIsKept(ActivatePending(s, now).value, base, interval, now);
    case DoConfirm(k) => ConfirmKept(s, now, k, base, interval);
    case DoCancelPending => CancelKept(s, CancelPending(s, now).value, now, base, interval);
    case DoUpdatePolicy(auto, newInterval, services) => UpdatePolicyKept(s, now, auto, newInterval, services, base, interval);
    case _ =>
  }

  lemma SecuredIsKept(s: Slot, base: Time, interval: Option<int>, now: Time)
    requires Secured(s, base, interval, now)
    ensures Kept(s, base, interval, now)
  {
  }

  lemma TouchKept(s: Slot, s': Slot, touch: Touch, now: Time, id: nat, base: Time, interval: Option<int>)
    requires Kept(s, base, interval, now) && Touched(s, s', touch, now, id) && SlotInv(s', now)
    requires !Disturbs(touch, now, base, interval)
    ensures Kept(s', base, interval, now)
  {
    hide SlotInv, Perform;
    match touch
    case ByOp(op) => PerformKept(s, op, now, id, base, interval);
    case ByCancel => CancelKept(s, s', now, base, interval);
    case ByReveal(row) =>
      RevealTouches(s, s', touch, now, id);
      RevealKept(s, s', now, base, interval);
    case BySweep =>
      RevealTouches(s, s', touch, now, id);
      RevealKept(s, s', now, base, interval);
    case _ =>
  }

  // ---------------------------------------------------------------------------
  // Every reachable slot keeps to its lifetime policy

  // The active key's lifetime began at `base` under the current interval, and a pending key
  // begins later and lasts as long.
  ghost predicate Scheduled(s: Slot, base: Time, now: Time) {
    base <= now && forall i :: 0 <= i < |s.keys| ==> ScheduledRow(s.keys[i], base, s.interval)
  }

  predicate ScheduledRow(k: Key, base: Time, interval: Option<int>) {
    && (k.status.Active? ==> Lasts(base, interval, k.expiresAt))
    && (k.status.Pending? ==>
          k.activateAt.Some? && base <= k.activateAt.value && Lasts(k.activateAt.value, interval, k.expiresAt))
  }

  // So many days of 86400 seconds in microseconds, or for ever.
  predicate Lasts(start: Time, interval: Option<int>, until: Option<Time>) {
    until == match interval
      case None => None
      case Some(days) => Some(start + days * 24 * 60 * 60 * 1_000_000)
  }

  ghost predicate OnSchedule(s: Slot, now: Time) { exists base: Time :: Scheduled(s, base, now) }

  lemma RotateNowScheduled(s: Slot, now: Time, id: nat)
    requires SlotInv(s, now) && s.enabled && RotateNow(s, now, id).Ok?
    ensures Scheduled(RotateNow(s, now, id).value, now, now)
  {
    RotatedRows(s, now, id);
    hide SlotInv, RotateNow;
  }

  lemma ActivatePendingScheduled(s: Slot, now: Time, base: Time)
    requires SlotInv(s, now) && s.enabled && Scheduled(s, base, now) && ActivatePending(s, now).Ok?
    ensures Scheduled(ActivatePending(s, now).value, s.keys[Find(s.keys, Pending).value].activateAt.value, now)
  {
    OnlyLastPending(s.keys, now);
    CutActive(s.keys, now);
    assert ScheduledRow(s.keys[Find(s.keys, Pending).value], base, s.interval);
    hide SlotInv, KeysInv;
  }

  // An edit that starts no lifetime.
  ghost predicate KeepsTimes(s: Slot, s': Slot) {
    && s'.interval == s.interval && |s'.keys| == |s.keys|
    && forall i :: 0 <= i < |s.keys| ==>
         s'.keys[i].status.Revoked? ||
         (s'.keys[i].status == s.keys[i].status && s'.keys[i].expiresAt == s.keys[i].expiresAt && s'.keys[i].activateAt == s.keys[i].activateAt)
  }

  lemma TimesKept(s: Slot, s': Slot, base: Time, now: Time)
    requires Scheduled(s, base, now) && KeepsTimes(s, s')
    ensures Scheduled(s', base, now)
  {
    forall i | 0 <= i < |s'.keys|
      ensures ScheduledRow(s'.keys[i], base, s'.interval)
    {
      assert ScheduledRow(s.keys[i], base, s.interval);
    }
  }

  lemma UpdatePolicyScheduled(s: Slot, now: Time, auto: Option<bool>, interval: Option<Option<int>>, services: bool, base: Time)
    requires SlotInv(s, now) && s.enabled && Scheduled(s, base, now) && UpdatePolicy(s, now, auto, interval, services).Ok?
    ensures OnSchedule(UpdatePolicy(s, now, auto, interval, services).value, now)
  {
    var s' := UpdatePolicy(s, now, auto, interval, services).value;
    var s1 := if auto == Some(false) then CancelAutomatic(s, now) else s;
    assert KeepsTimes(s, s1);
    TimesKept(s, s1, base, now);
    if s'.interval == s.interval {
      assert KeepsTimes(s1, s');
      TimesKept(s1, s', base, now);
    } else {
      CancelAutomaticInv(s, now);
      RestartScheduled(s1, now, s'.interval, s');
    }
  }

  lemma RestartScheduled(s: Slot, now: Time, interval: Option<int>, s': Slot)
    requires SlotInv(s, now) && s.enabled && interval != s.interval && RestartLifetime(s, now, interval).Ok?
    requires s'.keys == RestartLifetime(s, now, interval).value.keys && s'.interval == interval
    ensures Scheduled(s', now, now)
  {
    hide Chained, LastLink;
    var a := FoundActive(s, now);
  }

  lemma PerformScheduled(s: Slot, op: SlotOp, now: Time, id: nat)
    requires SlotInv(s, now) && s.enabled && OnSchedule(s, now) && Perform(s, op, now, id).Ok?
    ensures OnSchedule(Perform(s, op, now, id).value, now)
  {
    hide SlotInv;
    var base: Time :| Scheduled(s, base, now);
    var s' := Perform(s, op, now, id).value;
    match op
    case DoRotateNow => RotateNowScheduled(s, now, id);
    case DoPrepareRotation(at, inline, trigger) =>
      assert forall i :: 0 <= i < |s.keys| ==> s'.keys[i] == s.keys[i];
      assert Scheduled(s', base, now);
    case DoActivatePending => ActivatePendingScheduled(s, now, base);
    case DoUpdatePolicy(auto, interval, services) => UpdatePolicyScheduled(s, now, auto, interval, services, base);
    case _ =>
      assert KeepsTimes(s, s');
      TimesKept(s, s', base, now);
  }

  lemma TouchScheduled(s: Slot, s': Slot, touch: Touch, now: Time, id: nat)
    requires SlotInv(s, now) && OnSchedule(s, now) && Touched(s, s', touch, now, id)
    ensures OnSchedule(s', now)
  {
    hide SlotInv, Perform;
    if touch.ByOp? {
      PerformScheduled(s, touch.op, now, id);
    } else {
      var base: Time :| Scheduled(s, base, now);
      assert KeepsTimes(s, s');
      TimesKept(s, s', base, now);
    }
  }

  ghost predicate AllScheduled(w: World, now: Time) {
    forall sid :: Started(w, sid) ==> OnSchedule(w.slots[sid], now)
  }

  predicate BeforeActivation(r: Request) {
    r.PrepareMigration? || r.ConfirmPrepared? || r.StartCutover? || r.MarkReady? || r.AbortMigration?
  }

  lemma NothingStarts(w: World, r: Request, now: Time, sid: nat)
    requires BeforeActivation(r) && WorldInv(w, now) && !Started(w, sid)
    ensures !Started(Exec(w, r, now), sid)
  {
    SlotIdsAreOld(w, now);
    hide WorldInv, ValidatePrepared, JoinedRows, RowNames, Confirm;
    match r
    case ConfirmPrepared(pid, x, key) => ConfirmStartsNothing(w, now, pid, x, key, sid);
    case _ =>
  }

  lemma ConfirmStartsNothing(w: World, now: Time, pid: nat, x: nat, key: nat, sid: nat)
    requires !Started(w, sid)
    ensures ConfirmPreparedIn(w, now, pid, x, key).Ok? ==> !Started(ConfirmPreparedIn(w, now, pid, x, key).value, sid)
  {
  }

  // A slot that becomes active has one key, whose lifetime begins now.
  lemma NewlyStarted(w: World, r: Request, now: Time, sid: nat)
    requires WorldInv(w, now) && !Started(w, sid) && Started(Exec(w, r, now), sid)
    ensures Scheduled(Exec(w, r, now).slots[sid], now, now)
  {
    if BeforeActivation(r) { NothingStarts(w, r, now, sid); }
    hide SlotInv, Perform, NamesOf, CreateSlotIn, BootstrapIn, ActivatePreparedIn, PrepareMigrationIn, ConfirmPreparedIn;
    hide StartCutoverIn, MarkReadyIn, AbortMigrationIn;
    match r
    case ActivatePrepared(pid) => ActivatedFromStart(w, now, pid, sid);
    case CreateSlot(pid, name, auto, interval) => CreatedFromStart(w, now, pid, name, auto, interval, sid);
    case Bootstrap(pid) => BootstrappedFromStart(w, now, pid, sid);
    case _ => SlotIdsAreOld(w, now);
  }

  lemma SlotIdsAreOld(w: World, now: Time)
    requires WorldInv(w, now)
    ensures forall x :: x in w.slots ==> x < w.nextId && w.slots[x].project in w.projects
  {
    forall x | x in w.slots
      ensures x < w.nextId && w.slots[x].project in w.projects
    {
      assert Owned(w, x);
    }
  }

  lemma CreatedFromStart(w: World, now: Time, pid: nat, name: string, auto: Option<bool>, interval: Option<int>, sid: nat)
    requires WorldInv(w, now) && !Started(w, sid) && CreateSlotIn(w, now, pid, name, auto, interval).Ok?
    requires Started(CreateSlotIn(w, now, pid, name, auto, interval).value, sid)
    ensures Scheduled(CreateSlotIn(w, now, pid, name, auto, interval).value.slots[sid], now, now)
  {
    SlotIdsAreOld(w, now);
    hide WorldInv, NamesOf;
  }

  lemma NoSlots(w: World, pid: nat)
    ensures SlotsOf(w, pid) == {} <==> forall x :: x in w.slots ==> w.slots[x].project != pid
  {
    assert forall x :: x in SlotsOf(w, pid) <==> x in w.slots && w.slots[x].project == pid;
  }

  lemma BootstrappedFromStart(w: World, now: Time, pid: nat, sid: nat)
    requires WorldInv(w, now) && !Started(w, sid) && BootstrapIn(w, now, pid).Ok?
    requires Started(BootstrapIn(w, now, pid).value, sid)
    ensures Scheduled(BootstrapIn(w, now, pid).value.slots[sid], now, now)
  {
    BootstrappedWorld(w, now, pid);
    SlotIdsAreOld(w, now);
    NoSlots(w, pid);
    hide WorldInv, BootstrapIn;
  }

  lemma ActivatedFromStart(w: World, now: Time, pid: nat, sid: nat)
    requires WorldInv(w, now) && !Started(w, sid) && ActivatePreparedIn(w, now, pid).Ok?
    requires Started(ActivatePreparedIn(w, now, pid).value, sid)
    ensures Scheduled(ActivatePreparedIn(w, now, pid).value.slots[sid], now, now)
  {
    var s := w.slots[sid];
    assert Owned(w, sid) && Staged(s);
    hide SlotInv, ValidatePrepared, WorldInv;
  }

  lemma StepScheduled(w: World, r: Request, before: Time, now: Time)
    requires WorldInv(w, now) && AllScheduled(w, before) && before <= now
    ensures AllScheduled(Exec(w, r, now), now)
  {
    var w' := Exec(w, r, now);
    forall sid | Started(w', sid)
      ensures OnSchedule(w'.slots[sid], now)
    {
      if Started(w, sid) {
        var base: Time :| Scheduled(w.slots[sid], base, before);
        assert Scheduled(w.slots[sid], base, now);
        OneTouch(w, r, now, sid);
        assert SlotOk(w.projects[w.slots[sid].project], w.slots[sid], now);
        hide WorldInv, SlotInv, Exec, Touched, OnSchedule;
        if Apply(w, r, now).Ok? {
          TouchScheduled(w.slots[sid], w'.slots[sid], TouchOf(w, r, sid), now, w.nextId);
        }
      } else {
        NewlyStarted(w, r, now, sid);
      }
    }
  }

  lemma {:induction false} RunScheduled(w: World, events: seq<Event>, start: Time, end: Time)
    requires WorldInv(w, start) && AllScheduled(w, start) && Clocked(events, start, end)
    ensures AllScheduled(Run(w, events), end)
    decreases events
  {
    hide WorldInv, Exec, Scheduled;
    if events == [] {
      ScheduledLater(w, start, end);
    } else {
      var e := events[0];
      WorldLater(w, start, e.at);
      StepKeeps(w, e.request, e.at);
      StepScheduled(w, e.request, start, e.at);
      RunScheduled(Exec(w, e.request, e.at), events[1..], e.at, end);
    }
  }

  lemma ScheduledLater(w: World, now: Time, later: Time)
    requires AllScheduled(w, now) && now <= later
    ensures AllScheduled(w, later)
  {
    forall sid | Started(w, sid)
      ensures OnSchedule(w.slots[sid], later)
    {
      var base: Time :| Scheduled(w.slots[sid], base, now);
      assert Scheduled(w.slots[sid], base, later);
    }
  }

  // ---------------------------------------------------------------------------
  // No gap, over every run

  // The requests that can take from the slot what was secured or promised at `due`.
  predicate Disturbing(e: Event, pid: nat, sid: nat, due: Time, interval: Option<int>) {
    match e.request
    case OnSlot(_, x, op) => x == sid && Breaks(op, e.at, due, interval)
    case CancelProjectAutomatic(x) => x == pid && e.at < due
    case _ => false
  }

  predicate Undisturbed(events: seq<Event>, pid: nat, sid: nat, due: Time, interval: Option<int>) {
    forall e :: e in events ==> !Disturbing(e, pid, sid, due, interval)
  }

  lemma {:induction false} RunKept(w: World, events: seq<Event>, start: Time, end: Time, sid: nat, base: Time, interval: Option<int>)
    requires WorldInv(w, start) && Clocked(events, start, end) && Started(w, sid)
    requires Kept(w.slots[sid], base, interval, start) && Undisturbed(events, w.slots[sid].project, sid, base, interval)
    ensures Started(Run(w, events), sid) && Kept(Run(w, events).slots[sid], base, interval, end)
    decreases events
  {
    hide WorldInv, SlotInv, Exec, Kept, Touched, Breaks;
    if events == [] {
      KeptLater(w.slots[sid], base, interval, start, end);
    } else {
      var e := events[0];
      var w' := Exec(w, e.request, e.at);
      WorldLater(w, start, e.at);
      StepKeeps(w, e.request, e.at);
      KeptLater(w.slots[sid], base, interval, start, e.at);
      StepKept(w, e, sid, base, interval);
      RunKept(w', events[1..], e.at, end, sid, base, interval);
    }
  }

  lemma StepKept(w: World, e: Event, sid: nat, base: Time, interval: Option<int>)
    requires WorldInv(w, e.at) && WorldInv(Exec(w, e.request, e.at), e.at) && Started(w, sid)
    requires Kept(w.slots[sid], base, interval, e.at) && !Disturbing(e, w.slots[sid].project, sid, base, interval)
    ensures var w' := Exec(w, e.request, e.at);
      Started(w', sid) && w'.slots[sid].project == w.slots[sid].project && Kept(w'.slots[sid], base, interval, e.at)
  {
    var w' := Exec(w, e.request, e.at);
    OneTouch(w, e.request, e.at, sid);
    assert SlotOk(w'.projects[w'.slots[sid].project], w'.slots[sid], e.at);
    DisturbingTouch(w, e, sid, base, interval);
    hide WorldInv, SlotInv, Exec, Apply, Kept, Touched, TouchOf, Disturbs, Disturbing;
    if Apply(w, e.request, e.at).Ok? {
      TouchKept(w.slots[sid], w'.slots[sid], TouchOf(w, e.request, sid), e.at, w.nextId, base, interval);
    }
  }

  lemma DisturbingTouch(w: World, e: Event, sid: nat, base: Time, interval: Option<int>)
    requires sid in w.slots
    ensures Disturbs(TouchOf(w, e.request, sid), e.at, base, interval)
      <==> Disturbing(e, w.slots[sid].project, sid, base, interval)
  {
    hide Breaks;
  }

  // When the promise of a row is called in: a pending key when it is due, others at once.
  function DueTime(k: Key, now: Time): Time {
    if k.status.Pending? && k.activateAt.Some? then k.activateAt.value else now
  }

  lemma KeptFromRow(s: Slot, row: nat, now: Time) returns (base: Time)
    requires SlotInv(s, now) && OnSchedule(s, now) && s.enabled && row < |s.keys|
    requires s.keys[row].status.Active? || (s.keys[row].status.Pending? && s.keys[row].confirmedAt.Some?)
    ensures Kept(s, base, s.interval, now) && base <= DueTime(s.keys[row], now)
    ensures s.keys[row].expiresAt == ExpiryFrom(base, s.interval)
  {
    var k := s.keys[row];
    var from: Time :| Scheduled(s, from, now);
    assert ScheduledRow(k, from, s.interval);
    if k.status.Pending? {
      OnlyLastPending(s.keys, now);
      base := k.activateAt.value;
      assert Promised(s, base, s.interval, now);
    } else {
      base := from;
      forall i | 0 <= i < |s.keys|
        ensures CarriesOn(s.keys[i], base, s.interval, s.interval)
      {
        assert ScheduledRow(s.keys[i], from, s.interval);
      }
      assert Secured(s, base, s.interval, now);
    }
  }

  // From the moment a key is accepted, or confirmed as a replacement, some key of its slot is
  // accepted at every instant until that key's own expiry: through any run of requests and
  // scheduler steps in which nobody disables the slot, shortens its lifetime policy, or
  // cancels the replacement before it is due.
  lemma NoGap(before: seq<Event>, during: seq<Event>, t0: Time, t1: Time, t2: Time, sid: nat, row: nat, t: Time)
    requires Clocked(before, t0, t1) && Clocked(during, t1, t2) && t2 <= t
    requires var w := Run(EMPTY, before);
      && Started(w, sid) && w.slots[sid].enabled && row < |w.slots[sid].keys|
      && var k := w.slots[sid].keys[row];
         && (Admits(w, sid, row, t1) || (k.status.Pending? && k.confirmedAt.Some?))
         && Undisturbed(during, w.slots[sid].project, sid, DueTime(k, t1), w.slots[sid].interval)
         && Unexpired(k, t)
    ensures Served(Run(Run(EMPTY, before), during), sid, t)
  {
    var w := Run(EMPTY, before);
    var s := w.slots[sid];
    RunInv(EMPTY, before, t0, t1);
    RunScheduled(EMPTY, before, t0, t1);
    assert SlotOk(w.projects[s.project], s, t1);
    var base := KeptFromRow(s, row, t1);
    forall e | e in during
      ensures !Disturbing(e, s.project, sid, base, s.interval)
    {
      assert !Disturbing(e, s.project, sid, DueTime(s.keys[row], t1), s.interval);
    }
    hide WorldInv, SlotInv, Kept;
    RunKept(w, during, t1, t2, sid, base, s.interval);
    RunInv(w, during, t1, t2);
    var w' := Run(w, during);
    KeptServes(w'.slots[sid], base, s.interval, t2, t);
    ServedIffServing(w', t2, sid, t);
  }
}
