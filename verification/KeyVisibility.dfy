// What clients and administrators can see of one slot, at every later instant.
module KeyVisibility {
  import opened Prelude
  import opened KeySlots
  import opened KeySlotProofs

  // ---------------------------------------------------------------------------
  // The reference definition: which key serves at instant t if nothing else happens

  function Serving(s: Slot, t: Time): Option<nat> {
    var p := Find(s.keys, Pending);
    var a := Find(s.keys, Active);
    if !s.enabled then None
    else if p.Some? && EffectivePending(s.keys[p.value], t) then
      if Unexpired(s.keys[p.value], t) then p else None
    else if a.Some? && Unexpired(s.keys[a.value], t) then a
    else None
  }

  // The authorizer's query accepts exactly the serving key.
  lemma AcceptedIffServing(s: Slot, now: Time, i: nat, t: Time)
    requires SlotInv(s, now) && i < |s.keys|
    ensures Accepted(s, i, t) <==> Serving(s, t) == Some(i)
  {
    OnlyLastPending(s.keys, now);
    assert RowOk(s.keys[i], now);
    if s.enabled {
      var a := FoundActive(s, now);
    }
  }

  // A confirmed replacement that waits in the slot takes over at `at`.
  ghost predicate TakesOverAt(s: Slot, at: Time) {
    exists j :: 0 <= j < |s.keys| && s.keys[j].status.Pending? && s.keys[j].confirmedAt.Some? && s.keys[j].activateAt == Some(at)
  }

  // When a key is accepted if nothing else happens, whatever the slot: a confirmed replacement
  // from its activation on, an activated key until the replacement takes over, each strictly
  // before its own expiry and only in an enabled slot; an unconfirmed or revoked key never.
  // Discovery tests the same, and the listing all but the activation stamp.
  lemma AcceptedWhen(s: Slot, i: nat, t: Time)
    requires i < |s.keys|
    ensures var k := s.keys[i];
      Accepted(s, i, t) <==>
        && s.enabled && (k.expiresAt.None? || t < k.expiresAt.value)
        && match k.status
           case Pending => k.confirmedAt.Some? && k.activateAt.Some? && k.activateAt.value <= t
           case Active => k.activatedAt.Some? && forall at: Time :: TakesOverAt(s, at) ==> t < at
           case Revoked => false
    ensures Offered(s, i, t) == Accepted(s, i, t)
    ensures Accepted(s, i, t) <==> ShownAsAccepted(s, i, t) && (s.keys[i].status.Active? ==> s.keys[i].activatedAt.Some?)
  {
    if SupersededAt(s.keys, t) {
      var j :| 0 <= j < |s.keys| && EffectivePending(s.keys[j], t);
      assert TakesOverAt(s, s.keys[j].activateAt.value);
    } else {
      forall at: Time | TakesOverAt(s, at)
        ensures t < at
      {
        var j :| 0 <= j < |s.keys| && s.keys[j].status.Pending? && s.keys[j].confirmedAt.Some? && s.keys[j].activateAt == Some(at);
        assert !EffectivePending(s.keys[j], t);
      }
    }
  }

  // The three queries agree: authorizer, administrator's column, public discovery.
  lemma QueriesAgree(s: Slot, now: Time, i: nat, t: Time)
    requires SlotInv(s, now) && i < |s.keys|
    ensures Accepted(s, i, t) == ShownAsAccepted(s, i, t) == Offered(s, i, t)
  {
  }

  // ---------------------------------------------------------------------------
  // Operations clients cannot see

  // Activation is invisible now and at every later instant, however late it runs.
  lemma ActivationInvisible(s: Slot, now: Time, i: nat, t: Time)
    requires SlotInv(s, now) && s.enabled && ActivatePending(s, now).Ok?
    requires now <= t && i < |s.keys|
    ensures |ActivatePending(s, now).value.keys| == |s.keys|
    ensures Accepted(ActivatePending(s, now).value, i, t) == Accepted(s, i, t)
  {
    ActivatePendingInv(s, now);
    ActivatedRows(s, now);
    OnlyLastPending(s.keys, now);
    hide SlotInv, KeysInv, Accepted;
    AcceptedIffServing(s, now, i, t);
    AcceptedIffServing(ActivatePending(s, now).value, now, i, t);
  }

  // A prepared replacement is invisible until it is confirmed.
  lemma PreparationInvisible(s: Slot, now: Time, id: nat, activateAt: Time, inline: bool, trigger: Trigger, i: nat, t: Time)
    requires SlotInv(s, now) && s.enabled && now < activateAt
    requires PrepareRotation(s, now, id, activateAt, inline, trigger).Ok?
    requires i <= |s.keys|
    ensures |PrepareRotation(s, now, id, activateAt, inline, trigger).value.keys| == |s.keys| + 1
    ensures Accepted(PrepareRotation(s, now, id, activateAt, inline, trigger).value, i, t)
        <==> i < |s.keys| && Accepted(s, i, t)
  {
  }

  // ---------------------------------------------------------------------------
  // Handover

  // Until its activation time the predecessor serves, and from then on the
  // confirmed replacement does, up to the replacement's own expiry.
  lemma Handover(s: Slot, now: Time, t: Time)
    requires SlotInv(s, now) && s.enabled && now <= t
    requires Find(s.keys, Pending).Some?
    requires var p := s.keys[Find(s.keys, Pending).value]; p.confirmedAt.Some? && Unexpired(p, t)
    ensures Find(s.keys, Active).Some?
    ensures var p := Find(s.keys, Pending).value; var a := Find(s.keys, Active).value;
      Serving(s, t) == if Due(s.keys[p], t) then Some(p) else Some(a)
  {
  }

  predicate Covers(predecessor: Key, replacement: Key) {
    || predecessor.expiresAt.None?
    || (replacement.expiresAt.Some? && replacement.expiresAt.value <= predecessor.expiresAt.value)
  }

  // Without further operations the slot has an accepted key at every instant up to
  // the replacement's expiry exactly when the replacement is confirmed, or the
  // predecessor lasts that long itself.
  lemma NoGapIff(s: Slot, now: Time)
    requires SlotInv(s, now) && s.enabled
    requires Find(s.keys, Pending).Some?
    requires Serving(s, now).Some?
    ensures var p := s.keys[Find(s.keys, Pending).value];
      && Find(s.keys, Active).Some?
      && ((forall t :: now <= t && Unexpired(p, t) ==> Serving(s, t).Some?)
          <==> p.confirmedAt.Some? || Covers(s.keys[Find(s.keys, Active).value], p))
  {
    var a := FoundActive(s, now);
    var p := s.keys[Find(s.keys, Pending).value];
    if p.confirmedAt.Some? {
      forall t | now <= t && Unexpired(p, t)
        ensures Serving(s, t).Some?
      {
        Handover(s, now, t);
      }
    } else if !Covers(s.keys[a], p) {
      var e := s.keys[a].expiresAt.value;
      assert now <= e && Unexpired(p, e) && Serving(s, e).None?;
    }
  }

  // ---------------------------------------------------------------------------
  // Only disabling a slot takes service away at the moment it runs

  lemma FindAppended(keys: seq<Key>, k: Key, status: KeyStatus)
    ensures Find(keys + [k], status) == if k.status == status then Some(|keys|) else Find(keys, status)
  {
  }

  lemma RotateNowServes(s: Slot, now: Time, id: nat)
    requires SlotInv(s, now) && s.enabled && RotateNow(s, now, id).Ok?
    ensures Serving(RotateNow(s, now, id).value, now) == Some(|s.keys|)
  {
    CutPending(s.keys, now);
    var cut := Cut(s.keys, Pending, now);
    CutActive(cut, now);
    var revoked := Cut(cut, Active, now);
    var issued := RotateNow(s, now, id).value.keys[|s.keys|];
    FindAppended(revoked, issued, Active);
    FindAppended(revoked, issued, Pending);
  }

  lemma PrepareRotationServes(s: Slot, now: Time, id: nat, activateAt: Time, inline: bool, trigger: Trigger)
    requires PrepareRotation(s, now, id, activateAt, inline, trigger).Ok? && now < activateAt
    ensures Serving(PrepareRotation(s, now, id, activateAt, inline, trigger).value, now) == Serving(s, now)
  {
  }

  lemma ActivatePendingServes(s: Slot, now: Time)
    requires KeysInv(s.keys, now) && s.enabled && ActivatePending(s, now).Ok?
    ensures Serving(ActivatePending(s, now).value, now) == Some(|s.keys| - 1)
  {
  }

  lemma ConfirmServes(s: Slot, now: Time, id: nat, initialOnly: bool)
    requires SlotInv(s, now) && s.enabled && Confirm(s, now, id, initialOnly).Ok?
    requires Serving(s, now).Some?
    ensures Serving(Confirm(s, now, id, initialOnly).value, now).Some?
  {
  }

  lemma CancelServes(s: Slot, s': Slot, now: Time)
    requires SlotInv(s, now) && s.enabled && Serving(s, now).Some?
    requires s' == CancelAutomatic(s, now) || CancelPending(s, now) == Ok(s')
    ensures Serving(s', now) == Serving(s, now)
  {
    if s' != s {
      CutPending(s.keys, now);
      var a := FoundActive(s, now);
      assert s'.keys[a] == s.keys[a];
    }
  }

  lemma RestartServes(s: Slot, now: Time, interval: Option<int>)
    requires SlotInv(s, now) && s.enabled && Serving(s, now).Some?
    requires interval.Some? ==> interval.value >= MIN_INTERVAL
    requires RestartLifetime(s, now, interval).Ok?
    ensures Serving(RestartLifetime(s, now, interval).value, now) == Serving(s, now)
  {
    if interval != s.interval {
      var a := Find(s.keys, Active).value;
      FindAfterEdit(s.keys, a, s.keys[a].(expiresAt := ExpiryFrom(now, interval)));
    }
  }

  lemma {:induction false} FindAfterEdit(keys: seq<Key>, i: nat, k: Key)
    requires i < |keys| && k.status == keys[i].status
    ensures forall st: KeyStatus :: Find(keys[i := k], st) == Find(keys, st)
  {
    var n := |keys| - 1;
    if i < n {
      FindAfterEdit(keys[..n], i, k);
      assert keys[i := k][..n] == keys[..n][i := k];
    } else {
      assert keys[i := k][..n] == keys[..n];
    }
  }

  lemma UpdatePolicyServes(s: Slot, now: Time, auto: Option<bool>, interval: Option<Option<int>>, services: bool)
    requires SlotInv(s, now) && s.enabled && Serving(s, now).Some?
    requires UpdatePolicy(s, now, auto, interval, services).Ok?
    ensures Serving(UpdatePolicy(s, now, auto, interval, services).value, now) == Serving(s, now)
  {
    var s' := UpdatePolicy(s, now, auto, interval, services).value;
    var s1 := if auto == Some(false) then CancelAutomatic(s, now) else s;
    CancelServes(s, CancelAutomatic(s, now), now);
    CancelAutomaticKeeps(s, now);
    RestartServes(s1, now, s'.interval);
    ServingRows(RestartLifetime(s1, now, s'.interval).value, s', now);
  }

  lemma ServingRows(s: Slot, s': Slot, t: Time)
    requires s.enabled == s'.enabled && s.keys == s'.keys
    ensures Serving(s, t) == Serving(s', t)
  {
  }

  // A slot that serves clients still serves them after any other operation.
  lemma OnlyDisableInterrupts(s: Slot, op: SlotOp, now: Time, id: nat)
    requires SlotInv(s, now) && s.enabled && Serving(s, now).Some?
    requires Perform(s, op, now, id).Ok?
    ensures Serving(Perform(s, op, now, id).value, now).Some? <==> !op.DoDisable?
  {
    match op
    case DoRotateNow => RotateNowServes(s, now, id);
    case DoPrepareRotation(at, inline, trigger) => PrepareRotationServes(s, now, id, at, inline, trigger);
    case DoActivatePending => ActivatePendingServes(s, now);
    case DoConfirm(k) => ConfirmServes(s, now, k, false);
    case DoCancelPending => CancelServes(s, CancelPending(s, now).value, now);
    case DoDisable =>
    case DoUpdatePolicy(auto, interval, services) => UpdatePolicyServes(s, now, auto, interval, services);
  }

  // ---------------------------------------------------------------------------
  // The chain of keys clients have used

  // The rows that were effective at some moment up to t, in insertion order.
  function EffectiveKeys(keys: seq<Key>, t: Time): seq<Key> {
    if keys == [] then []
    else
      var k := keys[|keys| - 1];
      EffectiveKeys(keys[..|keys| - 1], t) + (if EverEffective(k, t) then [k] else [])
  }

  ghost predicate Linked(chain: seq<Key>) {
    forall n :: 0 <= n < |chain| ==> chain[n].predecessor == Before(chain, n)
  }

  function Before(chain: seq<Key>, n: nat): Option<nat>
    requires n <= |chain|
  {
    if n == 0 then None else Some(chain[n - 1].id)
  }

  lemma LinkedAppend(chain: seq<Key>, k: Key)
    requires Linked(chain)
    requires k.predecessor == Before(chain, |chain|)
    ensures Linked(chain + [k])
  {
  }

  ghost predicate Ends(chain: seq<Key>, id: Option<nat>) {
    id == Before(chain, |chain|)
  }

  lemma ChainedPrefix(keys: seq<Key>)
    requires keys != [] && Chained(keys)
    ensures Chained(keys[..|keys| - 1])
    ensures keys[|keys| - 1].predecessor == LastLink(keys[..|keys| - 1])
  {
    var rest := keys[..|keys| - 1];
    forall j | 0 <= j < |rest|
      ensures rest[j].predecessor == LastLink(rest[..j])
    {
      assert rest[..j] == keys[..j];
    }
  }

  lemma {:induction false} SettledPrefix(keys: seq<Key>, now: Time, t: Time)
    requires forall i :: 0 <= i < |keys| ==> RowOk(keys[i], now) && !keys[i].status.Pending?
    requires Chained(keys)
    ensures Linked(EffectiveKeys(keys, t))
    ensures Ends(EffectiveKeys(keys, t), LastLink(keys))
  {
    if keys != [] {
      var n := |keys| - 1;
      ChainedPrefix(keys);
      SettledPrefix(keys[..n], now, t);
      assert RowOk(keys[n], now);
      assert Settled(keys[n]) == EverEffective(keys[n], t);
      if Settled(keys[n]) {
        LinkedAppend(EffectiveKeys(keys[..n], t), keys[n]);
      }
    }
  }

  lemma EffectiveChain(keys: seq<Key>, now: Time, t: Time)
    requires KeysInv(keys, now)
    ensures Linked(EffectiveKeys(keys, t))
    ensures keys != [] && keys[|keys| - 1].status.Pending? ==>
      if EverEffective(keys[|keys| - 1], t) then Ends(EffectiveKeys(keys, t), Some(keys[|keys| - 1].id))
      else Ends(EffectiveKeys(keys, t), LastLink(keys[..|keys| - 1]))
    ensures (keys == [] || !keys[|keys| - 1].status.Pending?) ==> Ends(EffectiveKeys(keys, t), LastLink(keys))
  {
    hide LastLink;
    if keys != [] && keys[|keys| - 1].status.Pending? {
      var n := |keys| - 1;
      ChainedPrefix(keys);
      SettledPrefix(keys[..n], now, t);
      if EverEffective(keys[n], t) {
        LinkedAppend(EffectiveKeys(keys[..n], t), keys[n]);
      } else {
        assert EffectiveKeys(keys, t) == EffectiveKeys(keys[..n], t);
      }
    } else {
      SettledPrefix(keys, now, t);
    }
  }

  // Each key that clients have ever used replaced the one used just before it, and
  // the key accepted at t, if any, is the last of them.
  lemma OneChain(s: Slot, now: Time, t: Time)
    requires SlotInv(s, now) && now <= t
    ensures Linked(EffectiveKeys(s.keys, t))
    ensures Serving(s, t).Some? ==>
      Ends(EffectiveKeys(s.keys, t), Some(s.keys[Serving(s, t).value].id))
  {
    EffectiveChain(s.keys, now, t);
    PendingServes(s, now, t);
  }

  // The last effective row in terms of the live rows.
  lemma PendingServes(s: Slot, now: Time, t: Time)
    requires SlotInv(s, now) && now <= t
    ensures Serving(s, t).Some? && Serving(s, t) == Find(s.keys, Pending) ==>
      Serving(s, t).value == |s.keys| - 1 && EverEffective(s.keys[|s.keys| - 1], t)
    ensures Serving(s, t).Some? && Serving(s, t) != Find(s.keys, Pending) ==>
      && LastLink(s.keys) == Some(s.keys[Serving(s, t).value].id)
      && (s.keys[|s.keys| - 1].status.Pending? ==>
            !EverEffective(s.keys[|s.keys| - 1], t) && LastLink(s.keys[..|s.keys| - 1]) == LastLink(s.keys))
  {
    OnlyLastPending(s.keys, now);
    if s.enabled {
      var a := FoundActive(s, now);
      if s.keys[|s.keys| - 1].status.Pending? {
        assert Find(s.keys, Pending) == Some(|s.keys| - 1);
        assert RowOk(s.keys[|s.keys| - 1], now);
      }
    }
  }

  lemma ActivatableRows(s: Slot, now: Time)
    requires SlotInv(s, now) && s.enabled && ActivatePending(s, now).Ok?
    ensures Find(s.keys, Active).Some? && Find(s.keys, Active).value < |s.keys| - 1
    ensures EffectivePending(s.keys[|s.keys| - 1], now) && s.keys[|s.keys| - 1].activatedAt.None?
  {
    OnlyLastPending(s.keys, now);
  }

  // Rotating at once over a due replacement gives clients what activating it first
  // would have given them: same rows, same links, same accepted key.
  lemma LateSchedulerConfluence(s: Slot, now: Time, id: nat)
    requires SlotInv(s, now) && s.enabled && ActivatePending(s, now).Ok?
    ensures RotateNow(s, now, id).Ok? && RotateNow(ActivatePending(s, now).value, now, id).Ok?
    ensures SameForClients(RotateNow(s, now, id).value.keys, RotateNow(ActivatePending(s, now).value, now, id).value.keys, now)
  {
    hide *;
    RotateDirectly(s, now, id);
    RotateAfterActivation(s, now, id);
    ActivatableRows(s, now);
    SameRows(s.keys, Find(s.keys, Active).value, now, NewActive(id, now, s.interval, Some(s.keys[|s.keys| - 1].id), Manual));
  }

  lemma SameRows(keys: seq<Key>, a: nat, now: Time, issued: Key)
    requires a < |keys| - 1 && EffectivePending(keys[|keys| - 1], now) && keys[|keys| - 1].activatedAt.None?
    ensures var p := |keys| - 1;
      SameForClients(keys[p := Revoke(keys[p], now)][a := Revoke(keys[a], now)] + [issued],
                     keys[a := Revoke(keys[a], now)][p := Revoke(keys[p].(activatedAt := Some(now)), now)] + [issued], now)
  {
  }

  // The rows once an effective pending key p and the active key a are both revoked.
  lemma RotateDirectly(s: Slot, now: Time, id: nat)
    requires SlotInv(s, now) && s.enabled && ActivatePending(s, now).Ok?
    ensures RotateNow(s, now, id).Ok?
    ensures var p := |s.keys| - 1; var a := Find(s.keys, Active).value;
      RotateNow(s, now, id).value.keys
        == s.keys[p := Revoke(s.keys[p], now)][a := Revoke(s.keys[a], now)]
           + [NewActive(id, now, s.interval, Some(s.keys[p].id), Manual)]
  {
  }

  lemma RotateAfterActivation(s: Slot, now: Time, id: nat)
    requires SlotInv(s, now) && s.enabled && ActivatePending(s, now).Ok?
    ensures RotateNow(ActivatePending(s, now).value, now, id).Ok?
    ensures var p := |s.keys| - 1; var a := Find(s.keys, Active).value;
      RotateNow(ActivatePending(s, now).value, now, id).value.keys
        == s.keys[a := Revoke(s.keys[a], now)][p := Revoke(s.keys[p].(activatedAt := Some(now)), now)]
           + [NewActive(id, now, s.interval, Some(s.keys[p].id), Manual)]
  {
    OnlyLastPending(s.keys, now);
    ActivatedRows(s, now);
    var p := |s.keys| - 1;
    var a := Find(s.keys, Active).value;
    var s1 := ActivatePending(s, now).value;
    var cut := s.keys[a := Revoke(s.keys[a], now)];
    assert s1.keys == cut[p := s.keys[p].(status := Active, activatedAt := Some(now))];
    assert s1.keys[p := Revoke(s1.keys[p], now)] == cut[p := Revoke(s.keys[p].(activatedAt := Some(now)), now)];
  }

  lemma ActivatedRows(s: Slot, now: Time)
    requires KeysInv(s.keys, now) && ActivatePending(s, now).Ok?
    ensures Find(ActivatePending(s, now).value.keys, Active) == Some(|s.keys| - 1)
    ensures Find(ActivatePending(s, now).value.keys, Pending).None?
  {
    OnlyLastPending(s.keys, now);
    CutActive(s.keys, now);
    var keys := ActivatePending(s, now).value.keys;
    assert keys[|keys| - 1].status.Active?;
    assert forall j :: 0 <= j < |keys| - 1 ==> keys[j] == Cut(s.keys, Active, now)[j];
  }

  predicate SameForClients(a: seq<Key>, b: seq<Key>, now: Time) {
    && |a| == |b|
    && forall i :: 0 <= i < |a| ==>
         && a[i].id == b[i].id
         && a[i].status == b[i].status
         && a[i].predecessor == b[i].predecessor
         && a[i].expiresAt == b[i].expiresAt
         && EverEffective(a[i], now) == EverEffective(b[i], now)
  }
}
