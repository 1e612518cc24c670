// A scheduler that lags behind: what a slot does when a due key is activated late, compared
// with the same slot activated at once, over everything that reaches it in between.
module KeyLag {
  import opened Prelude
  import opened KeySlots
  import opened KeySlotProofs
  import opened KeyVisibility
  import opened KeyWorld
  import opened KeyRuns
  import opened KeyContinuity

  // What reaches a slot, when, and the identifier drawn for a key it may issue.
  datatype Visit = Visit(touch: Touch, at: Time, id: nat)

  function Next(s: Slot, v: Visit): Slot {
    match v.touch
    case Untouched => s
    case ByOp(op) => if s.enabled && Perform(s, op, v.at, v.id).Ok? then Perform(s, op, v.at, v.id).value else s
    case ByCancel => CancelAutomatic(s, v.at)
    case ByReveal(row) => if row < |s.keys| && ClaimReveal(s, v.at, row).Ok? then ClaimReveal(s, v.at, row).value else s
    case ByBlock => s.(blockedAt := Some(v.at))
    case BySweep => PurgeReveals(s, v.at)
  }

  function After(s: Slot, visits: seq<Visit>): Slot
    decreases visits
  {
    if visits == [] then s else After(Next(s, visits[0]), visits[1..])
  }

  // Every request of a run is one visit to each slot of an active project.
  lemma RequestIsAVisit(w: World, r: Request, now: Time, sid: nat)
    requires WorldInv(w, now) && Started(w, sid)
    ensures var touch := if Apply(w, r, now).Ok? then TouchOf(w, r, sid) else Untouched;
      Started(Exec(w, r, now), sid) && Exec(w, r, now).slots[sid] == Next(w.slots[sid], Visit(touch, now, w.nextId))
  {
    OneTouch(w, r, now, sid);
    hide WorldInv, Apply, Exec, Perform, CancelAutomatic, ClaimReveal, PurgeReveals;
  }

  // ---------------------------------------------------------------------------
  // The two slots

  predicate SamePolicy(s: Slot, u: Slot) {
    && u.project == s.project && u.name == s.name && u.enabled == s.enabled && u.autoRotation == s.autoRotation
    && u.interval == s.interval && u.blockedAt == s.blockedAt && |u.keys| == |s.keys|
  }

  // A key as clients and operations see it: when an active key was activated does not matter.
  predicate Alike(k: Key, l: Key) {
    && l.id == k.id && l.status == k.status
    && (k.status.Revoked? || (l == k.(activatedAt := l.activatedAt) && (l.activatedAt.Some? <==> k.activatedAt.Some?)))
  }

  predicate Twins(s: Slot, u: Slot) {
    SamePolicy(s, u) && forall i :: 0 <= i < |s.keys| ==> Alike(s.keys[i], u.keys[i])
  }

  // In `s` the last key is due and still pending behind the active key `a`; `u` has activated it.
  predicate LagsAt(s: Slot, u: Slot, a: nat, now: Time) {
    var p := |s.keys| - 1;
    && SamePolicy(s, u) && s.enabled && a < p
    && s.keys[a].status.Active? && s.keys[a].activatedAt.Some? && u.keys[a].status.Revoked? && u.keys[a].id == s.keys[a].id
    && EffectivePending(s.keys[p], now)
    && u.keys[p] == s.keys[p].(status := Active, activatedAt := u.keys[p].activatedAt) && u.keys[p].activatedAt.Some?
    && forall i :: 0 <= i < p && i != a ==> s.keys[i].status.Revoked? && Alike(s.keys[i], u.keys[i])
  }

  ghost predicate Lags(s: Slot, u: Slot, now: Time) { exists a: nat :: LagsAt(s, u, a, now) }

  // The only operations that tell the two apart: preparing a replacement, and a new interval.
  predicate Notices(s: Slot, v: Visit) {
    v.touch.ByOp? &&
    match v.touch.op
    case DoPrepareRotation(at, _, _) => v.at < at
    case DoUpdatePolicy(auto, interval, _) => interval.Some? && interval.value != s.interval
    case _ => false
  }

  ghost predicate Unnoticed(s: Slot, u: Slot, visits: seq<Visit>)
    decreases visits
  {
    visits != [] ==>
      && !(Lags(s, u, visits[0].at) && Notices(s, visits[0]))
      && Unnoticed(Next(s, visits[0]), Next(u, visits[0]), visits[1..])
  }

  ghost predicate InOrder(visits: seq<Visit>, start: Time, end: Time)
    decreases visits
  {
    if visits == [] then start <= end else start <= visits[0].at && InOrder(visits[1..], visits[0].at, end)
  }

  // ---------------------------------------------------------------------------
  // Clients cannot tell the two apart

  lemma TwinsAccept(s: Slot, u: Slot, i: nat, t: Time)
    requires Twins(s, u) && i < |s.keys|
    ensures Accepted(u, i, t) == Accepted(s, i, t)
  {
    assert forall j :: 0 <= j < |s.keys| ==> Alike(s.keys[j], u.keys[j]);
    assert SupersededAt(s.keys, t) == SupersededAt(u.keys, t) by {
      if SupersededAt(s.keys, t) {
        var j :| 0 <= j < |s.keys| && EffectivePending(s.keys[j], t);
        assert EffectivePending(u.keys[j], t);
      }
      if SupersededAt(u.keys, t) {
        var j :| 0 <= j < |u.keys| && EffectivePending(u.keys[j], t);
        assert EffectivePending(s.keys[j], t);
      }
    }
  }

  lemma LaggingAccepts(s: Slot, u: Slot, now: Time, i: nat, t: Time)
    requires Lags(s, u, now) && now <= t && i < |s.keys|
    ensures Accepted(u, i, t) == Accepted(s, i, t)
  {
    var a: nat :| LagsAt(s, u, a, now);
    assert EffectivePending(s.keys[|s.keys| - 1], t);
    assert !SupersededAt(u.keys, t);
  }

  // ---------------------------------------------------------------------------
  // Twins stay twins

  lemma {:induction false} TwinsFind(a: seq<Key>, b: seq<Key>)
    requires |a| == |b| && forall i :: 0 <= i < |a| ==> Alike(a[i], b[i])
    ensures forall status: KeyStatus :: Find(a, status) == Find(b, status)
  {
    FindSameStatus(a, b);
  }

  lemma TwinsCut(a: seq<Key>, b: seq<Key>, status: KeyStatus, now: Time)
    requires |a| == |b| && forall i :: 0 <= i < |a| ==> Alike(a[i], b[i])
    ensures var (c, d) := (Cut(a, status, now), Cut(b, status, now));
      |c| == |a| && |d| == |a| && forall i :: 0 <= i < |a| ==> Alike(c[i], d[i])
  {
    TwinsFind(a, b);
  }

  lemma TwinsRotate(s: Slot, u: Slot, now: Time, id: nat)
    requires Twins(s, u)
    ensures RotateNow(s, now, id).Ok? == RotateNow(u, now, id).Ok?
    ensures RotateNow(s, now, id).Ok? ==> Twins(RotateNow(s, now, id).value, RotateNow(u, now, id).value)
  {
    TwinsFind(s.keys, u.keys);
    TwinsCut(s.keys, u.keys, Pending, now);
    TwinsCut(Cut(s.keys, Pending, now), Cut(u.keys, Pending, now), Active, now);
    hide Cut, Find;
    if RotateNow(s, now, id).Ok? {
      var p, a := Find(s.keys, Pending), Find(s.keys, Active);
      var current := if p.Some? then p.value else a.value;
      assert Alike(s.keys[current], u.keys[current]);
      var issued := NewActive(id, now, s.interval, Some(s.keys[current].id), Manual);
      TwinsAppend(s, u, Cut(Cut(s.keys, Pending, now), Active, now), Cut(Cut(u.keys, Pending, now), Active, now), issued);
    }
    hide Twins;
  }

  lemma TwinsAppend(s: Slot, u: Slot, c: seq<Key>, d: seq<Key>, k: Key)
    requires SamePolicy(s, u) && |c| == |d| && forall i :: 0 <= i < |c| ==> Alike(c[i], d[i])
    ensures Twins(s.(blockedAt := None, keys := c + [k]), u.(blockedAt := None, keys := d + [k]))
  {
  }

  lemma TwinsActivate(s: Slot, u: Slot, now: Time)
    requires Twins(s, u)
    ensures ActivatePending(s, now).Ok? == ActivatePending(u, now).Ok?
    ensures ActivatePending(s, now).Ok? ==> Twins(ActivatePending(s, now).value, ActivatePending(u, now).value)
  {
    TwinsFind(s.keys, u.keys);
    TwinsCut(s.keys, u.keys, Active, now);
    hide Cut;
  }

  lemma TwinsCancelAutomatic(s: Slot, u: Slot, now: Time)
    requires Twins(s, u)
    ensures Twins(CancelAutomatic(s, now), CancelAutomatic(u, now))
  {
    TwinsFind(s.keys, u.keys);
  }

  lemma TwinsRestart(s: Slot, u: Slot, now: Time, interval: Option<int>)
    requires Twins(s, u)
    ensures RestartLifetime(s, now, interval).Ok? == RestartLifetime(u, now, interval).Ok?
    ensures RestartLifetime(s, now, interval).Ok? ==>
      Twins(RestartLifetime(s, now, interval).value, RestartLifetime(u, now, interval).value)
  {
    TwinsFind(s.keys, u.keys);
    hide Find;
  }

  lemma TwinsPrepare(s: Slot, u: Slot, now: Time, id: nat, at: Time, inline: bool, trigger: Trigger)
    requires Twins(s, u)
    ensures PrepareRotation(s, now, id, at, inline, trigger).Ok? == PrepareRotation(u, now, id, at, inline, trigger).Ok?
    ensures PrepareRotation(s, now, id, at, inline, trigger).Ok? ==>
      Twins(PrepareRotation(s, now, id, at, inline, trigger).value, PrepareRotation(u, now, id, at, inline, trigger).value)
  {
    TwinsFind(s.keys, u.keys);
    hide Find;
  }

  lemma TwinsConfirm(s: Slot, u: Slot, now: Time, id: nat)
    requires Twins(s, u)
    ensures Confirm(s, now, id, false).Ok? == Confirm(u, now, id, false).Ok?
    ensures Confirm(s, now, id, false).Ok? ==> Twins(Confirm(s, now, id, false).value, Confirm(u, now, id, false).value)
  {
    TwinsFind(s.keys, u.keys);
    hide Find;
  }

  lemma TwinsCancel(s: Slot, u: Slot, now: Time)
    requires Twins(s, u)
    ensures CancelPending(s, now).Ok? == CancelPending(u, now).Ok?
    ensures CancelPending(s, now).Ok? ==> Twins(CancelPending(s, now).value, CancelPending(u, now).value)
  {
    TwinsFind(s.keys, u.keys);
    TwinsCut(s.keys, u.keys, Pending, now);
    hide Find, Cut;
  }

  lemma TwinsUpdate(s: Slot, u: Slot, now: Time, auto: Option<bool>, interval: Option<Option<int>>, services: bool)
    requires Twins(s, u)
    ensures UpdatePolicy(s, now, auto, interval, services).Ok? == UpdatePolicy(u, now, auto, interval, services).Ok?
    ensures UpdatePolicy(s, now, auto, interval, services).Ok? ==>
      Twins(UpdatePolicy(s, now, auto, interval, services).value, UpdatePolicy(u, now, auto, interval, services).value)
  {
    assert u.interval == s.interval && u.autoRotation == s.autoRotation;
    hide CancelAutomatic, Retune, Twins, SamePolicy, Alike;
    TwinsCancelAutomatic(s, u, now);
    var s1 := if auto == Some(false) then CancelAutomatic(s, now) else s;
    var u1 := if auto == Some(false) then CancelAutomatic(u, now) else u;
    var newInterval := if interval.Some? then interval.value else s.interval;
    var newAuto := if auto.Some? then auto.value else s.autoRotation;
    TwinsRetune(s1, u1, now, newAuto, newInterval);
  }

  lemma TwinsRetune(s: Slot, u: Slot, now: Time, auto: bool, interval: Option<int>)
    requires Twins(s, u)
    ensures Retune(s, now, auto, interval).Ok? == Retune(u, now, auto, interval).Ok?
    ensures Retune(s, now, auto, interval).Ok? ==>
      Twins(Retune(s, now, auto, interval).value, Retune(u, now, auto, interval).value)
  {
    TwinsRestart(s, u, now, interval);
    hide RestartLifetime, Alike;
  }

  lemma TwinsPerform(s: Slot, u: Slot, op: SlotOp, now: Time, id: nat)
    requires Twins(s, u)
    ensures Perform(s, op, now, id).Ok? == Perform(u, op, now, id).Ok?
    ensures Perform(s, op, now, id).Ok? ==> Twins(Perform(s, op, now, id).value, Perform(u, op, now, id).value)
  {
    hide RotateNow, PrepareRotation, ActivatePending, Confirm, CancelPending, UpdatePolicy;
    match op
    case DoRotateNow => TwinsRotate(s, u, now, id);
    case DoPrepareRotation(at, inline, trigger) => TwinsPrepare(s, u, now, id, at, inline, trigger);
    case DoActivatePending => TwinsActivate(s, u, now);
    case DoConfirm(k) => TwinsConfirm(s, u, now, k);
    case DoCancelPending => TwinsCancel(s, u, now);
    case DoUpdatePolicy(auto, interval, services) => TwinsUpdate(s, u, now, auto, interval, services);
    case DoDisable =>
  }

  lemma TwinsStay(s: Slot, u: Slot, v: Visit)
    requires Twins(s, u)
    ensures Twins(Next(s, v), Next(u, v))
  {
    match v.touch
    case ByOp(op) =>
      TwinsPerform(s, u, op, v.at, v.id);
      hide Perform;
    case ByCancel => TwinsCancelAutomatic(s, u, v.at);
    case _ =>
  }

  // ---------------------------------------------------------------------------
  // A lagging slot keeps lagging until it catches up

  lemma LaggingFinds(s: Slot, u: Slot, a: nat, now: Time)
    requires LagsAt(s, u, a, now)
    ensures Find(s.keys, Pending) == Some(|s.keys| - 1) && Find(s.keys, Active) == Some(a)
    ensures Find(u.keys, Pending).None? && Find(u.keys, Active) == Some(|s.keys| - 1)
  {
    var p := |s.keys| - 1;
    assert forall i :: 0 <= i < p && i != a ==> s.keys[i].status.Revoked? && u.keys[i].status.Revoked?;
  }

  lemma LaggingCatchesUp(s: Slot, u: Slot, a: nat, v: Visit)
    requires LagsAt(s, u, a, v.at) && (v.touch == ByOp(DoRotateNow) || v.touch == ByOp(DoDisable))
    ensures Twins(Next(s, v), Next(u, v))
  {
    LaggingFinds(s, u, a, v.at);
    hide Find;
  }

  lemma LaggingActivates(s: Slot, u: Slot, a: nat, v: Visit)
    requires LagsAt(s, u, a, v.at) && v.touch == ByOp(DoActivatePending)
    ensures if Unexpired(s.keys[|s.keys| - 1], v.at) then Twins(Next(s, v), Next(u, v)) else Next(s, v) == s && Next(u, v) == u
  {
    LaggingFinds(s, u, a, v.at);
    hide Find;
  }

  // A replacement, a confirmation or a cancellation is refused on both sides.
  lemma LaggingRefuses(s: Slot, u: Slot, a: nat, v: Visit)
    requires LagsAt(s, u, a, v.at) && !Notices(s, v)
    requires v.touch.ByOp? && (v.touch.op.DoPrepareRotation? || v.touch.op.DoConfirm? || v.touch.op.DoCancelPending?)
    ensures Next(s, v) == s && Next(u, v) == u
  {
    LaggingFinds(s, u, a, v.at);
    hide Find;
  }

  // A policy update that keeps the interval leaves the rows alone, and looks at none of them.
  lemma UpdateKeepsRows(s: Slot, now: Time, auto: Option<bool>, interval: Option<Option<int>>, services: bool)
    requires CancelAutomatic(s, now) == s && (interval.None? || interval.value == s.interval)
    ensures var newAuto := if auto.Some? then auto.value else s.autoRotation;
      UpdatePolicy(s, now, auto, interval, services)
      == if auto.None? && interval.None? && !services then Err(PolicyEmpty)
         else if interval.Some? && s.interval.Some? && !(MIN_INTERVAL <= s.interval.value <= MAX_INTERVAL) then Err(BadInterval)
         else if s.interval.None? && newAuto then Err(AutomaticNeedsInterval)
         else Ok(s.(autoRotation := newAuto, blockedAt := if newAuto || s.interval.None? then None else s.blockedAt))
  {
    hide CancelAutomatic;
  }

  lemma LaggingUpdates(s: Slot, u: Slot, a: nat, v: Visit)
    requires LagsAt(s, u, a, v.at) && !Notices(s, v) && v.touch.ByOp? && v.touch.op.DoUpdatePolicy?
    ensures LagsAt(Next(s, v), Next(u, v), a, v.at)
  {
    LaggingCancelsNothing(s, u, a, v.at);
    var op := v.touch.op;
    UpdateKeepsRows(s, v.at, op.auto, op.interval, op.services);
    UpdateKeepsRows(u, v.at, op.auto, op.interval, op.services);
    NextUpdates(s, v);
    NextUpdates(u, v);
    LagsRetuned(s, u, a, v.at, Next(s, v).autoRotation, Next(s, v).blockedAt);
    hide CancelAutomatic, LagsAt, UpdatePolicy, Next;
  }

  lemma NextUpdates(s: Slot, v: Visit)
    requires v.touch.ByOp? && v.touch.op.DoUpdatePolicy? && s.enabled
    ensures var r := UpdatePolicy(s, v.at, v.touch.op.auto, v.touch.op.interval, v.touch.op.services);
      Next(s, v) == if r.Ok? then r.value else s
  {
    hide UpdatePolicy;
  }

  lemma LaggingCancelsNothing(s: Slot, u: Slot, a: nat, now: Time)
    requires LagsAt(s, u, a, now)
    ensures CancelAutomatic(s, now) == s && CancelAutomatic(u, now) == u
  {
    LaggingFinds(s, u, a, now);
    hide Find;
  }

  lemma LagsRetuned(s: Slot, u: Slot, a: nat, now: Time, auto: bool, blocked: Option<Time>)
    requires LagsAt(s, u, a, now)
    ensures SamePolicy(s, u) && s.enabled
    ensures LagsAt(s.(autoRotation := auto, blockedAt := blocked), u.(autoRotation := auto, blockedAt := blocked), a, now)
  {
  }

  lemma LaggingReveals(s: Slot, u: Slot, a: nat, v: Visit)
    requires LagsAt(s, u, a, v.at) && v.touch.ByReveal?
    ensures LagsAt(Next(s, v), Next(u, v), a, v.at)
  {
    var row, p := v.touch.row, |s.keys| - 1;
    if row < |s.keys| && row != a && row != p {
      assert s.keys[row].status.Revoked? && Alike(s.keys[row], u.keys[row]);
    }
  }

  lemma LaggingSweeps(s: Slot, u: Slot, a: nat, v: Visit)
    requires LagsAt(s, u, a, v.at) && v.touch.BySweep?
    ensures LagsAt(Next(s, v), Next(u, v), a, v.at)
  {
  }

  lemma LaggingStays(s: Slot, u: Slot, a: nat, v: Visit)
    requires LagsAt(s, u, a, v.at) && !v.touch.ByOp?
    ensures LagsAt(Next(s, v), Next(u, v), a, v.at)
  {
    match v.touch
    case ByReveal(row) => LaggingReveals(s, u, a, v);
    case BySweep => LaggingSweeps(s, u, a, v);
    case ByCancel =>
      LaggingFinds(s, u, a, v.at);
      hide Find;
      assert Next(s, v) == s && Next(u, v) == u;
    case _ =>
  }

  ghost predicate Together(s: Slot, u: Slot, now: Time) { Twins(s, u) || Lags(s, u, now) }

  lemma TogetherStays(s: Slot, u: Slot, v: Visit)
    requires Together(s, u, v.at) && !(Lags(s, u, v.at) && Notices(s, v))
    ensures Together(Next(s, v), Next(u, v), v.at)
  {
    hide Next, LagsAt, Notices;
    if Twins(s, u) {
      TwinsStay(s, u, v);
    } else {
      var a: nat :| LagsAt(s, u, a, v.at);
      hide Twins;
      if v.touch == ByOp(DoRotateNow) || v.touch == ByOp(DoDisable) {
        LaggingCatchesUp(s, u, a, v);
      } else if v.touch == ByOp(DoActivatePending) {
        LaggingActivates(s, u, a, v);
      } else if v.touch.ByOp? && v.touch.op.DoUpdatePolicy? {
        LaggingUpdates(s, u, a, v);
      } else if v.touch.ByOp? {
        LaggingRefuses(s, u, a, v);
      } else {
        LaggingStays(s, u, a, v);
      }
    }
  }

  lemma TogetherLater(s: Slot, u: Slot, now: Time, later: Time)
    requires Together(s, u, now) && now <= later
    ensures Together(s, u, later)
  {
    if Lags(s, u, now) {
      var a: nat :| LagsAt(s, u, a, now);
      assert LagsAt(s, u, a, later);
    }
  }

  lemma {:induction false} TogetherThroughout(s: Slot, u: Slot, visits: seq<Visit>, start: Time, end: Time)
    requires Together(s, u, start) && InOrder(visits, start, end) && Unnoticed(s, u, visits)
    ensures Together(After(s, visits), After(u, visits), end)
    decreases visits
  {
    hide Together, Next, Lags;
    if visits == [] {
      TogetherLater(s, u, start, end);
    } else {
      TogetherLater(s, u, start, visits[0].at);
      TogetherStays(s, u, visits[0]);
      TogetherThroughout(Next(s, visits[0]), Next(u, visits[0]), visits[1..], visits[0].at, end);
    }
  }

  lemma ActivationLags(s: Slot, now: Time)
    requires SlotInv(s, now) && s.enabled && ActivatePending(s, now).Ok?
    ensures Lags(s, ActivatePending(s, now).value, now)
  {
    OnlyLastPending(s.keys, now);
    ActivatedRows(s, now);
    hide SlotInv, KeysInv;
    var u := ActivatePending(s, now).value;
    assert LagsAt(s, u, Find(s.keys, Active).value, now);
  }

  // However late a due key is activated, every key is accepted exactly when it would have
  // been, through all later operations, cancellations, reveals and sweeps, as long as none of
  // them meets the lag with a new replacement or a new interval.
  lemma LateActivation(s: Slot, now: Time, visits: seq<Visit>, end: Time, i: nat, t: Time)
    requires SlotInv(s, now) && s.enabled && ActivatePending(s, now).Ok?
    requires InOrder(visits, now, end) && Unnoticed(s, ActivatePending(s, now).value, visits) && end <= t
    ensures var (late, prompt) := (After(s, visits), After(ActivatePending(s, now).value, visits));
      |late.keys| == |prompt.keys| && (i < |late.keys| ==> Accepted(late, i, t) == Accepted(prompt, i, t))
  {
    var u := ActivatePending(s, now).value;
    ActivationLags(s, now);
    TogetherThroughout(s, u, visits, now, end);
    hide After, Unnoticed, Accepted, ActivatePending, SlotInv;
    var late, prompt := After(s, visits), After(u, visits);
    if Lags(late, prompt, end) {
      if i < |late.keys| { LaggingAccepts(late, prompt, end, i, t); }
    } else if i < |late.keys| {
      TwinsAccept(late, prompt, i, t);
    }
  }

  // Those two do tell: the lagging slot refuses them, where the prompt one takes a replacement
  // due before its key expires, and a legal new interval while its key lasts.
  lemma NoticedIff(s: Slot, u: Slot, v: Visit)
    requires Lags(s, u, v.at) && Notices(s, v)
    ensures Perform(s, v.touch.op, v.at, v.id).Err?
    ensures var k := s.keys[|s.keys| - 1];
      Perform(u, v.touch.op, v.at, v.id).Ok? <==>
        match v.touch.op
        case DoPrepareRotation(at, _, _) => k.expiresAt.None? || at <= k.expiresAt.value
        case DoUpdatePolicy(auto, interval, _) =>
          && (interval.value.Some? ==> MIN_INTERVAL <= interval.value.value <= MAX_INTERVAL)
          && (interval.value.None? ==> !(if auto.Some? then auto.value else s.autoRotation))
          && Unexpired(k, v.at)
        case _ => false
  {
    var a: nat :| LagsAt(s, u, a, v.at);
    LaggingFinds(s, u, a, v.at);
    hide Find;
  }
}
