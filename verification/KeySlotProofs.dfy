// What every lifecycle operation keeps of one slot, and what clients can see of it.
module KeySlotProofs {
  import opened Prelude
  import opened KeySlots

  // ---------------------------------------------------------------------------
  // Keys that clients could use at some moment

  // Effective at some moment up to t: activated outright, or due and confirmed
  // while it was still pending.
  predicate EverEffective(k: Key, t: Time) {
    || k.activatedAt.Some?
    || (k.confirmedAt.Some? && Due(k, if k.revokedAt.Some? then k.revokedAt.value else t))
  }

  // The part of EverEffective that the clock can no longer change.
  predicate Settled(k: Key) {
    !k.status.Pending? && EverEffective(k, 0)
  }

  // The most recent row that is settled.
  function LastLink(keys: seq<Key>): (r: Option<nat>) {
    if keys == [] then None
    else if Settled(keys[|keys| - 1]) then Some(keys[|keys| - 1].id)
    else LastLink(keys[..|keys| - 1])
  }

  // Had its time, and clients may no longer use it.
  predicate Retired(s: Slot, i: nat, t: Time)
    requires i < |s.keys|
  {
    EverEffective(s.keys[i], t) && !Accepted(s, i, t)
  }

  // ---------------------------------------------------------------------------
  // Invariant of a slot in a project whose opaque keys are active

  ghost predicate RowOk(k: Key, now: Time) {
    && (k.status.Pending? ==>
      && k.activatedAt.None? && k.revokedAt.None? && k.activateAt.Some?
      && (k.expiresAt.Some? ==> k.activateAt.value < k.expiresAt.value))
    && (k.status.Active? ==> k.activatedAt.Some? && k.revokedAt.None?)
    && (k.status.Revoked? ==> k.revokedAt.Some? && k.revokedAt.value <= now)
    && (k.confirmedAt.Some? ==> k.confirmedAt.value <= now)
  }

  ghost predicate Chained(keys: seq<Key>) {
    forall j {:trigger keys[..j]} :: 0 <= j < |keys| ==> keys[j].predecessor == LastLink(keys[..j])
  }

  ghost predicate OneLive(keys: seq<Key>) {
    && (forall i :: 0 <= i < |keys| - 1 ==> !keys[i].status.Pending?)
    && (forall i, j :: 0 <= i < |keys| && 0 <= j < |keys| && keys[i].status.Active? && keys[j].status.Active? ==> i == j)
  }

  // The active key is the last settled link; a pending key replaces it no later
  // than it expires.
  ghost predicate Anchored(keys: seq<Key>, a: nat) {
    && a < |keys|
    && keys[a].status.Active?
    && LastLink(keys) == Some(keys[a].id)
    && (forall i :: 0 <= i < |keys| && keys[i].status.Pending? && keys[a].expiresAt.Some? ==>
          keys[i].activateAt.Some? && keys[i].activateAt.value <= keys[a].expiresAt.value)
  }

  ghost predicate KeysInv(keys: seq<Key>, now: Time) {
    && (forall i :: 0 <= i < |keys| ==> RowOk(keys[i], now))
    && OneLive(keys)
    && Chained(keys)
  }

  ghost predicate SlotInv(s: Slot, now: Time) {
    && PolicyOk(s)
    && KeysInv(s.keys, now)
    && (if s.enabled then exists a: nat :: Anchored(s.keys, a)
        else forall i :: 0 <= i < |s.keys| ==> s.keys[i].status.Revoked?)
  }

  ghost predicate PolicyOk(s: Slot) {
    && (s.interval.Some? ==> MIN_INTERVAL <= s.interval.value <= MAX_INTERVAL)
    && (s.autoRotation ==> s.interval.Some?)
  }

  // What one operation at `now` may do to the rows clients have already seen.
  ghost predicate Keeps(s: Slot, s': Slot, now: Time) {
    && |s.keys| <= |s'.keys|
    && (forall i :: 0 <= i < |s.keys| ==> s'.keys[i].id == s.keys[i].id)
    && (forall i :: 0 <= i < |s.keys| && EverEffective(s.keys[i], now) ==> EverEffective(s'.keys[i], now))
    && (forall i :: 0 <= i < |s.keys| && Retired(s, i, now) ==> Retired(s', i, now))
  }

  // How one row may change in one operation.
  ghost predicate RowStep(k: Key, k': Key, now: Time) {
    && k'.id == k.id
    && (EverEffective(k, now) ==> EverEffective(k', now))
    && (k.status.Revoked? ==> k'.status.Revoked?)
    && (!Unexpired(k, now) ==> !Unexpired(k', now))
    && (k'.status.Active? ==> k.status.Active? || EffectivePending(k, now))
    && (k'.status.Pending? ==> k.status.Pending?)
  }

  ghost predicate Edited(s: Slot, s': Slot, now: Time) {
    && |s.keys| <= |s'.keys|
    && (s'.enabled ==> s.enabled)
    && (forall i :: 0 <= i < |s.keys| ==> RowStep(s.keys[i], s'.keys[i], now))
    && (SupersededAt(s.keys, now) ==>
          SupersededAt(s'.keys, now) ||
          forall i :: 0 <= i < |s.keys| && s'.keys[i].status.Active? ==> EffectivePending(s.keys[i], now))
  }

  lemma EditedKeeps(s: Slot, s': Slot, now: Time)
    requires forall i :: 0 <= i < |s.keys| ==> RowOk(s.keys[i], now)
    requires Edited(s, s', now)
    ensures Keeps(s, s', now)
  {
  }

  // ---------------------------------------------------------------------------
  // The chain

  lemma {:induction false} LastLinkDependsOnSettled(a: seq<Key>, b: seq<Key>)
    requires |a| == |b|
    requires forall i :: 0 <= i < |a| ==> a[i].id == b[i].id && Settled(a[i]) == Settled(b[i])
    ensures LastLink(a) == LastLink(b)
  {
    if a != [] {
      LastLinkDependsOnSettled(a[..|a| - 1], b[..|b| - 1]);
    }
  }

  // Editing one row that is last, or whose standing is settled, keeps the chain.
  lemma ReplaceInv(keys: seq<Key>, i: nat, k: Key, now: Time)
    requires KeysInv(keys, now) && i < |keys|
    requires RowOk(k, now) && k.id == keys[i].id && k.predecessor == keys[i].predecessor
    requires k.status.Pending? ==> keys[i].status.Pending?
    requires k.status.Active? ==> keys[i].status.Active? || Find(keys, Active).None?
    requires i == |keys| - 1 || Settled(k) == Settled(keys[i])
    ensures KeysInv(keys[i := k], now)
    ensures Settled(k) == Settled(keys[i]) ==> LastLink(keys[i := k]) == LastLink(keys)
    ensures i == |keys| - 1 && Settled(k) ==> LastLink(keys[i := k]) == Some(k.id)
  {
    var b := keys[i := k];
    ReplaceChained(keys, i, k);
    hide Chained;
    if Settled(k) == Settled(keys[i]) {
      LastLinkDependsOnSettled(keys, b);
    }
  }

  lemma ReplaceChained(a: seq<Key>, i: nat, k: Key)
    requires Chained(a) && i < |a|
    requires k.id == a[i].id && k.predecessor == a[i].predecessor
    requires i == |a| - 1 || Settled(k) == Settled(a[i])
    ensures Chained(a[i := k])
  {
    var b := a[i := k];
    forall j | 0 <= j < |b|
      ensures b[j].predecessor == LastLink(b[..j])
    {
      LastLinkDependsOnSettled(a[..j], b[..j]);
    }
  }

  lemma AppendInv(keys: seq<Key>, k: Key, now: Time)
    requires KeysInv(keys, now)
    requires RowOk(k, now) && k.predecessor == LastLink(keys)
    requires Find(keys, Pending).None?
    requires k.status.Active? ==> Find(keys, Active).None?
    ensures KeysInv(keys + [k], now)
    ensures Settled(k) ==> LastLink(keys + [k]) == Some(k.id)
    ensures !Settled(k) ==> LastLink(keys + [k]) == LastLink(keys)
  {
    ChainedAppend(keys, k);
  }

  lemma ChainedAppend(a: seq<Key>, k: Key)
    requires Chained(a)
    requires k.predecessor == LastLink(a)
    ensures Chained(a + [k])
    ensures Settled(k) ==> LastLink(a + [k]) == Some(k.id)
    ensures !Settled(k) ==> LastLink(a + [k]) == LastLink(a)
  {
    var b := a + [k];
    forall j | 0 <= j < |b|
      ensures b[j].predecessor == LastLink(b[..j])
    {
      assert b[..j] == a[..j];
      assert a[..|a|] == a;
    }
    assert b[..|b| - 1] == a;
  }


  // ---------------------------------------------------------------------------
  // Consequences of the invariant

  // At most one key of a slot is accepted at any instant.
  lemma AtMostOneAccepted(s: Slot, now: Time, i: nat, j: nat, t: Time)
    requires SlotInv(s, now)
    requires i < |s.keys| && j < |s.keys|
    requires Accepted(s, i, t) && Accepted(s, j, t)
    ensures i == j
  {
  }


  // Time alone never brings a retired key back.
  lemma RetiredStays(s: Slot, i: nat, now: Time, later: Time)
    requires SlotInv(s, now) && now <= later && i < |s.keys|
    requires Retired(s, i, now)
    ensures Retired(s, i, later)
  {
  }

  lemma FoundActive(s: Slot, now: Time) returns (a: nat)
    requires SlotInv(s, now) && s.enabled
    ensures Find(s.keys, Active) == Some(a)
    ensures Anchored(s.keys, a)
  {
    a :| Anchored(s.keys, a);
  }

  // ---------------------------------------------------------------------------
  // Every operation keeps the invariant and never revives a retired key

  lemma OnlyLastPending(keys: seq<Key>, now: Time)
    requires KeysInv(keys, now)
    ensures var p := Find(keys, Pending); p.Some? ==> p.value == |keys| - 1
  {
  }

  // Revoking the active key leaves the slot without one, and the chain as it was.
  lemma CutActive(keys: seq<Key>, now: Time)
    requires KeysInv(keys, now) && Find(keys, Active).Some?
    ensures var cut := Cut(keys, Active, now);
      && |cut| == |keys|
      && KeysInv(cut, now)
      && LastLink(cut) == LastLink(keys)
      && Find(cut, Active).None?
      && Find(cut, Pending) == Find(keys, Pending)
  {
    var a := Find(keys, Active).value;
    ReplaceInv(keys, a, Revoke(keys[a], now), now);
    FindAfterReplace(keys, a, Revoke(keys[a], now));
  }

  // Revoking the pending key leaves the chain as it was, unless clients could
  // already use that key: then it becomes the last link.
  lemma CutPending(keys: seq<Key>, now: Time)
    requires KeysInv(keys, now)
    ensures var p := Find(keys, Pending); var cut := Cut(keys, Pending, now);
      && |cut| == |keys|
      && KeysInv(cut, now)
      && (p.Some? && EffectivePending(keys[p.value], now) ==> LastLink(cut) == Some(keys[p.value].id))
      && (p.None? || !EffectivePending(keys[p.value], now) ==> LastLink(cut) == LastLink(keys))
      && Find(cut, Pending).None?
      && Find(cut, Active) == Find(keys, Active)
  {
    var p := Find(keys, Pending);
    if p.Some? {
      OnlyLastPending(keys, now);
      ReplaceInv(keys, p.value, Revoke(keys[p.value], now), now);
      FindAfterReplace(keys, p.value, Revoke(keys[p.value], now));
    }
  }

  // Revoking a row moves no other row's status.
  lemma FindAfterReplace(keys: seq<Key>, i: nat, k: Key)
    requires i < |keys| && k.status.Revoked?
    requires OneLive(keys)
    ensures forall st: KeyStatus :: !st.Revoked? && st != keys[i].status ==> Find(keys[i := k], st) == Find(keys, st)
    ensures !keys[i].status.Revoked? ==> Find(keys[i := k], keys[i].status).None?
  {
    FindOther(keys, i, k);
  }

  lemma {:induction false} FindOther(keys: seq<Key>, i: nat, k: Key)
    requires i < |keys| && k.status.Revoked?
    ensures forall st: KeyStatus :: !st.Revoked? && st != keys[i].status ==> Find(keys[i := k], st) == Find(keys, st)
  {
    var n := |keys| - 1;
    if i < n {
      FindOther(keys[..n], i, k);
      assert keys[i := k][..n] == keys[..n][i := k];
    } else {
      assert keys[i := k][..n] == keys[..n];
    }
  }

  // A new active key appended after the live ones are revoked anchors the slot.
  lemma AppendActive(keys: seq<Key>, k: Key, now: Time)
    requires KeysInv(keys, now) && RowOk(k, now)
    requires k.status.Active? && k.predecessor == LastLink(keys)
    requires Find(keys, Pending).None? && Find(keys, Active).None?
    ensures KeysInv(keys + [k], now)
    ensures Anchored(keys + [k], |keys|)
  {
    AppendInv(keys, k, now);
  }

  lemma RotateNowInv(s: Slot, now: Time, id: nat)
    requires SlotInv(s, now) && s.enabled
    requires RotateNow(s, now, id).Ok?
    ensures SlotInv(RotateNow(s, now, id).value, now)
  {
    var s' := RotateNow(s, now, id).value;
    var a := FoundActive(s, now);
    CutPending(s.keys, now);
    var cut := Cut(s.keys, Pending, now);
    CutActive(cut, now);
    var revoked := Cut(cut, Active, now);
    var current := s.keys[if Find(s.keys, Pending).Some? then Find(s.keys, Pending).value else a];
    AppendActive(revoked, NewActive(id, now, s.interval, Some(current.id), Manual), now);
  }

  lemma RotateNowEdits(s: Slot, now: Time, id: nat)
    requires SlotInv(s, now) && s.enabled
    requires RotateNow(s, now, id).Ok?
    ensures Edited(s, RotateNow(s, now, id).value, now)
  {
    hide Chained, LastLink;
  }

  lemma PrepareRotationInv(s: Slot, now: Time, id: nat, activateAt: Time, inline: bool, trigger: Trigger)
    requires SlotInv(s, now) && s.enabled && now < activateAt
    requires PrepareRotation(s, now, id, activateAt, inline, trigger).Ok?
    ensures SlotInv(PrepareRotation(s, now, id, activateAt, inline, trigger).value, now)
    ensures Edited(s, PrepareRotation(s, now, id, activateAt, inline, trigger).value, now)
  {
    var s' := PrepareRotation(s, now, id, activateAt, inline, trigger).value;
    var a := FoundActive(s, now);
    AppendInv(s.keys, s'.keys[|s.keys|], now);
    assert Anchored(s'.keys, a);
    assert SupersededAt(s.keys, now) ==> SupersededAt(s'.keys, now);
  }

  lemma ActivatePendingInv(s: Slot, now: Time)
    requires SlotInv(s, now) && s.enabled
    requires ActivatePending(s, now).Ok?
    ensures SlotInv(ActivatePending(s, now).value, now)
  {
    var s' := ActivatePending(s, now).value;
    var a := FoundActive(s, now);
    OnlyLastPending(s.keys, now);
    CutActive(s.keys, now);
    var cut := Cut(s.keys, Active, now);
    ReplaceInv(cut, |cut| - 1, s'.keys[|cut| - 1], now);
    assert Anchored(s'.keys, |cut| - 1);
  }

  lemma ActivatePendingEdits(s: Slot, now: Time)
    requires SlotInv(s, now) && s.enabled
    requires ActivatePending(s, now).Ok?
    ensures Edited(s, ActivatePending(s, now).value, now)
  {
  }

  lemma ConfirmInv(s: Slot, now: Time, id: nat, initialOnly: bool)
    requires SlotInv(s, now) && s.enabled
    requires Confirm(s, now, id, initialOnly).Ok?
    ensures SlotInv(Confirm(s, now, id, initialOnly).value, now)
    ensures Edited(s, Confirm(s, now, id, initialOnly).value, now)
  {
    hide Chained, LastLink;
    var s' := Confirm(s, now, id, initialOnly).value;
    var a := FoundActive(s, now);
    var p := Find(s.keys, Pending).value;
    ReplaceInv(s.keys, p, s'.keys[p], now);
    assert Anchored(s'.keys, a);
  }

  // Revoking a replacement that clients cannot use yet.
  lemma DropPendingInv(s: Slot, s': Slot, now: Time)
    requires SlotInv(s, now) && s.enabled
    requires Find(s.keys, Pending).Some? && !EffectivePending(s.keys[Find(s.keys, Pending).value], now)
    requires s' == s.(blockedAt := s'.blockedAt, keys := Cut(s.keys, Pending, now))
    ensures SlotInv(s', now)
    ensures Edited(s, s', now)
    ensures Find(s'.keys, Pending).None? && Find(s'.keys, Active) == Find(s.keys, Active)
  {
    var a := FoundActive(s, now);
    CutPending(s.keys, now);
    assert Anchored(s'.keys, a);
    DropPendingEdits(s, s', now);
    hide KeysInv, LastLink, Edited;
  }

  lemma DropPendingEdits(s: Slot, s': Slot, now: Time)
    requires forall i :: 0 <= i < |s.keys| ==> RowOk(s.keys[i], now)
    requires Find(s.keys, Pending).Some? && !EffectivePending(s.keys[Find(s.keys, Pending).value], now)
    requires s' == s.(blockedAt := s'.blockedAt, keys := Cut(s.keys, Pending, now))
    ensures Edited(s, s', now)
  {
  }

  lemma CancelPendingInv(s: Slot, now: Time)
    requires SlotInv(s, now) && s.enabled
    requires CancelPending(s, now).Ok?
    ensures SlotInv(CancelPending(s, now).value, now)
    ensures Edited(s, CancelPending(s, now).value, now)
  {
    DropPendingInv(s, CancelPending(s, now).value, now);
  }

  lemma CancelAutomaticInv(s: Slot, now: Time)
    requires SlotInv(s, now)
    ensures SlotInv(CancelAutomatic(s, now), now)
    ensures Edited(s, CancelAutomatic(s, now), now)
  {
    if CancelAutomatic(s, now) != s {
      DropPendingInv(s, CancelAutomatic(s, now), now);
    }
  }

  lemma DisableInv(s: Slot, now: Time)
    requires SlotInv(s, now)
    ensures SlotInv(Disable(s, now), now)
  {
    var keys, cut := s.keys, Disable(s, now).keys;
    forall i | 0 <= i < |cut|
      ensures cut[i].status.Revoked? && RowOk(cut[i], now) && cut[i].predecessor == keys[i].predecessor
    {
      assert RowOk(keys[i], now);
    }
    forall j | 0 <= j < |cut|
      ensures cut[j].predecessor == LastLink(cut[..j])
    {
      DisabledLinks(s, now, j);
    }
  }

  lemma DisabledLinks(s: Slot, now: Time, j: nat)
    requires KeysInv(s.keys, now) && j < |s.keys|
    ensures LastLink(Disable(s, now).keys[..j]) == LastLink(s.keys[..j])
  {
    var cut := Disable(s, now).keys;
    forall i | 0 <= i < j
      ensures cut[i].id == s.keys[i].id && Settled(cut[i]) == Settled(s.keys[i])
    {
      assert RowOk(s.keys[i], now);
    }
    LastLinkDependsOnSettled(s.keys[..j], cut[..j]);
  }

  lemma DisableEdits(s: Slot, now: Time)
    requires SlotInv(s, now)
    ensures Edited(s, Disable(s, now), now)
  {
  }

  // Changing the expiry of an active key that has not expired.
  lemma MoveExpiryInv(s: Slot, e: Option<Time>, now: Time)
    requires SlotInv(s, now) && s.enabled
    requires Find(s.keys, Pending).None? && Find(s.keys, Active).Some?
    requires Unexpired(s.keys[Find(s.keys, Active).value], now)
    ensures var a := Find(s.keys, Active).value; var s' := s.(keys := s.keys[a := s.keys[a].(expiresAt := e)]);
      SlotInv(s', now) && Edited(s, s', now)
  {
    var a := FoundActive(s, now);
    var k := s.keys[a].(expiresAt := e);
    ReplaceInv(s.keys, a, k, now);
    assert Anchored(s.keys[a := k], a);
    MoveExpiryEdits(s, a, k, now);
    hide KeysInv, LastLink, Edited;
  }

  lemma MoveExpiryEdits(s: Slot, a: nat, k: Key, now: Time)
    requires a < |s.keys| && s.keys[a].status.Active? && Unexpired(s.keys[a], now)
    requires k == s.keys[a].(expiresAt := k.expiresAt) && RowOk(s.keys[a], now)
    ensures Edited(s, s.(keys := s.keys[a := k]), now)
  {
  }

  lemma ClaimRevealInv(s: Slot, now: Time, i: nat)
    requires SlotInv(s, now) && i < |s.keys|
    requires ClaimReveal(s, now, i).Ok?
    ensures SlotInv(ClaimReveal(s, now, i).value, now)
  {
    var s' := ClaimReveal(s, now, i).value;
    if s' != s {
      ReplaceInv(s.keys, i, s'.keys[i], now);
      if s.enabled {
        var a := FoundActive(s, now);
        assert Anchored(s'.keys, a);
      }
    }
  }

  lemma ClaimRevealEdits(s: Slot, now: Time, i: nat)
    requires i < |s.keys|
    requires ClaimReveal(s, now, i).Ok?
    ensures Edited(s, ClaimReveal(s, now, i).value, now)
  {
  }

  lemma RestartLifetimeKeeps(s: Slot, now: Time, interval: Option<int>)
    requires SlotInv(s, now) && s.enabled
    requires RestartLifetime(s, now, interval).Ok?
    ensures SlotInv(RestartLifetime(s, now, interval).value, now)
    ensures Keeps(s, RestartLifetime(s, now, interval).value, now)
  {
    if interval == s.interval {
      KeepsItself(s, now);
    } else {
      var e := ExpiryFrom(now, interval);
      MoveExpiryInv(s, e, now);
      EditedKeeps(s, RestartLifetime(s, now, interval).value, now);
    }
  }

  lemma CancelAutomaticKeeps(s: Slot, now: Time)
    requires SlotInv(s, now)
    ensures SlotInv(CancelAutomatic(s, now), now)
    ensures Keeps(s, CancelAutomatic(s, now), now)
  {
    CancelAutomaticInv(s, now);
    EditedKeeps(s, CancelAutomatic(s, now), now);
  }

  // The policy update is at most three edits: cancel an unused machine-made
  // replacement, restart the lifetime of the live key, and set the policy columns.
  lemma UpdatePolicyInv(s: Slot, now: Time, auto: Option<bool>, interval: Option<Option<int>>, services: bool)
    requires SlotInv(s, now) && s.enabled
    requires UpdatePolicy(s, now, auto, interval, services).Ok?
    ensures SlotInv(UpdatePolicy(s, now, auto, interval, services).value, now)
    ensures Keeps(s, UpdatePolicy(s, now, auto, interval, services).value, now)
  {
    var s' := UpdatePolicy(s, now, auto, interval, services).value;
    var s1 := if auto == Some(false) then CancelAutomatic(s, now) else s;
    CancelAutomaticKeeps(s, now);
    KeepsItself(s, now);
    RestartLifetimeKeeps(s1, now, s'.interval);
    var s2 := RestartLifetime(s1, now, s'.interval).value;
    SetColumns(s2, s', now);
    KeepsTransitive(s, s1, s2, now);
    KeepsTransitive(s, s2, s', now);
  }

  // Only the stored reveals differ, and no transition that clients can see reads them.
  ghost predicate SameButReveals(s: Slot, s': Slot) {
    && s' == s.(keys := s'.keys) && |s'.keys| == |s.keys|
    && forall i :: 0 <= i < |s.keys| ==> s'.keys[i] == s.keys[i].(revealStored := s'.keys[i].revealStored)
  }

  lemma RevealsDoNotMatter(s: Slot, s': Slot, now: Time)
    requires SlotInv(s, now) && SameButReveals(s, s')
    ensures SlotInv(s', now) && Keeps(s, s', now)
    ensures forall i, t :: 0 <= i < |s.keys| ==> Accepted(s', i, t) == Accepted(s, i, t)
  {
    forall i | 0 <= i < |s.keys|
      ensures RowOk(s'.keys[i], now)
    {
      assert RowOk(s.keys[i], now);
    }
    forall j {:trigger s'.keys[..j]} | 0 <= j < |s.keys|
      ensures s'.keys[j].predecessor == LastLink(s'.keys[..j])
    {
      LastLinkDependsOnSettled(s.keys[..j], s'.keys[..j]);
    }
    LastLinkDependsOnSettled(s.keys, s'.keys);
    RevealsHidden(s, s');
    if s.enabled {
      var a := FoundActive(s, now);
      assert Anchored(s'.keys, a);
    }
  }

  lemma RevealsHidden(s: Slot, s': Slot)
    requires SameButReveals(s, s')
    ensures forall i, t :: 0 <= i < |s.keys| ==> Accepted(s', i, t) == Accepted(s, i, t)
  {
    forall t
      ensures SupersededAt(s'.keys, t) <==> SupersededAt(s.keys, t)
    {
      if SupersededAt(s.keys, t) {
        var j :| 0 <= j < |s.keys| && EffectivePending(s.keys[j], t);
        assert EffectivePending(s'.keys[j], t);
      }
    }
  }

  lemma SetColumns(s: Slot, s': Slot, now: Time)
    requires SlotInv(s, now) && PolicyOk(s')
    requires s'.keys == s.keys && s'.enabled == s.enabled
    ensures SlotInv(s', now) && Keeps(s, s', now)
  {
  }

  lemma KeepsItself(s: Slot, now: Time)
    ensures Keeps(s, s, now)
  {
  }

  lemma KeepsTransitive(a: Slot, b: Slot, c: Slot, now: Time)
    requires Keeps(a, b, now) && Keeps(b, c, now)
    ensures Keeps(a, c, now)
  {
  }

  // ---------------------------------------------------------------------------
  // The same for whichever operation runs

  lemma PerformInv(s: Slot, op: SlotOp, now: Time, id: nat)
    requires SlotInv(s, now) && s.enabled
    requires Perform(s, op, now, id).Ok?
    ensures SlotInv(Perform(s, op, now, id).value, now)
    ensures Keeps(s, Perform(s, op, now, id).value, now)
  {
    var s' := Perform(s, op, now, id).value;
    match op
    case DoRotateNow =>
      RotateNowInv(s, now, id);
      RotateNowEdits(s, now, id);
      EditedKeeps(s, s', now);
    case DoPrepareRotation(at, inline, trigger) =>
      PrepareRotationInv(s, now, id, at, inline, trigger);
      EditedKeeps(s, s', now);
    case DoActivatePending =>
      ActivatePendingInv(s, now);
      ActivatePendingEdits(s, now);
      EditedKeeps(s, s', now);
    case DoConfirm(k) =>
      ConfirmInv(s, now, k, false);
      EditedKeeps(s, s', now);
    case DoCancelPending =>
      CancelPendingInv(s, now);
      EditedKeeps(s, s', now);
    case DoDisable =>
      DisableInv(s, now);
      DisableEdits(s, now);
      EditedKeeps(s, s', now);
    case DoUpdatePolicy(auto, interval, services) =>
      UpdatePolicyInv(s, now, auto, interval, services);
  }

  // Identifiers grow with the rows, so that no two rows of a slot share one.
  ghost predicate IdsBelow(keys: seq<Key>, bound: nat) {
    && (forall i :: 0 <= i < |keys| ==> keys[i].id < bound)
    && (forall i, j :: 0 <= i < j < |keys| ==> keys[i].id < keys[j].id)
  }

  // Nothing removes or reorders a row, and at most one row is added, under the new id.
  ghost predicate Grown(keys: seq<Key>, keys': seq<Key>, id: nat) {
    && |keys| <= |keys'| <= |keys| + 1
    && (forall i :: 0 <= i < |keys| ==> keys'[i].id == keys[i].id)
    && (|keys'| > |keys| ==> keys'[|keys|].id == id)
  }

  lemma UpdatePolicyRows(s: Slot, now: Time, auto: Option<bool>, interval: Option<Option<int>>, services: bool, id: nat)
    requires UpdatePolicy(s, now, auto, interval, services).Ok?
    ensures var s' := UpdatePolicy(s, now, auto, interval, services).value;
      Grown(s.keys, s'.keys, id) && s'.project == s.project && s'.name == s.name
  {
    var s1 := if auto == Some(false) then CancelAutomatic(s, now) else s;
    assert Grown(s.keys, s1.keys, id);
  }

  lemma PerformRows(s: Slot, op: SlotOp, now: Time, id: nat)
    requires Perform(s, op, now, id).Ok?
    ensures Grown(s.keys, Perform(s, op, now, id).value.keys, id)
    ensures Perform(s, op, now, id).value.project == s.project
    ensures Perform(s, op, now, id).value.name == s.name
  {
    hide RotateNow, PrepareRotation, UpdatePolicy, Find;
    match op
    case DoRotateNow => RotateNowRows(s, now, id);
    case DoPrepareRotation(at, inline, trigger) => PrepareRotationRows(s, now, id, at, inline, trigger);
    case DoUpdatePolicy(auto, interval, services) => UpdatePolicyRows(s, now, auto, interval, services, id);
    case _ =>
  }

  lemma RotateNowRows(s: Slot, now: Time, id: nat)
    requires RotateNow(s, now, id).Ok?
    ensures var s' := RotateNow(s, now, id).value; Grown(s.keys, s'.keys, id) && s'.project == s.project && s'.name == s.name
  {
  }

  lemma PrepareRotationRows(s: Slot, now: Time, id: nat, activateAt: Time, inline: bool, trigger: Trigger)
    requires PrepareRotation(s, now, id, activateAt, inline, trigger).Ok?
    ensures var s' := PrepareRotation(s, now, id, activateAt, inline, trigger).value;
      Grown(s.keys, s'.keys, id) && s'.project == s.project && s'.name == s.name
  {
  }

  lemma GrownIds(keys: seq<Key>, keys': seq<Key>, id: nat)
    requires IdsBelow(keys, id) && Grown(keys, keys', id)
    ensures IdsBelow(keys', id + 1)
  {
  }
}
