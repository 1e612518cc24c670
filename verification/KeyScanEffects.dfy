// What a scan may do to a slot and what it must do, on the rows themselves.
module KeyScanEffects {
  import opened Prelude
  import opened KeySlots
  import opened KeySlotProofs
  import opened KeyWorld

  // ---------------------------------------------------------------------------
  // What a scan that ran from `from` to `to` may have done

  // The reveals of revoked and expired keys are swept; nothing else of the row changes.
  ghost predicate RowSwept(k: Key, k': Key, from: Time) {
    k' == k.(revealStored := k.revealStored && !k.status.Revoked? && (k.expiresAt.None? || from < k.expiresAt.value))
  }

  // A confirmed replacement that was due and had not expired.
  ghost predicate RowActivated(k: Key, k': Key, t: Time) {
    && k.status.Pending? && k.confirmedAt.Some? && k.activateAt.Some? && k.activateAt.value <= t
    && (k.expiresAt.None? || t < k.expiresAt.value)
    && k' == k.(status := Active, activatedAt := Some(t))
  }

  ghost predicate RowReplaced(k: Key, k': Key, t: Time) {
    k.status.Active? && k' == k.(status := Revoked, revokedAt := Some(t), revealStored := false)
  }

  // At t the replacement `b` took over from `a`.
  ghost predicate TurnedAt(s: Slot, s': Slot, from: Time, t: Time, a: nat, b: nat) {
    && a < |s.keys| <= |s'.keys| && b < |s.keys|
    && RowReplaced(s.keys[a], s'.keys[a], t) && RowActivated(s.keys[b], s'.keys[b], t)
    && forall i :: 0 <= i < |s.keys| && i != a && i != b ==> RowSwept(s.keys[i], s'.keys[i], from)
  }

  ghost predicate Turned(s: Slot, s': Slot, from: Time, to: Time) {
    exists t: Time, a: nat, b: nat :: from <= t <= to && TurnedAt(s, s', from, t, a, b)
  }

  ghost predicate AllSwept(s: Slot, s': Slot, from: Time) {
    |s.keys| <= |s'.keys| && forall i :: 0 <= i < |s.keys| ==> RowSwept(s.keys[i], s'.keys[i], from)
  }

  ghost predicate GatewayReady(p: Project) { p.activatedAt.Some? && p.readyAt.Some? }

  // The master switch, the slot's own switch and its lifetime policy ask for replacements.
  ghost predicate Rotates(p: Project, s: Slot) { p.autoRotation && s.autoRotation && s.interval.Some? }

  // The added row replaces the active row `a`, which expires within the lead, at its expiry.
  ghost predicate PreparedAt(s: Slot, s': Slot, t: Time, a: nat, lead: Time) {
    && |s'.keys| == |s.keys| + 1 && a < |s.keys| && s.interval.Some?
    && s'.keys[a].status.Active? && s'.keys[a].expiresAt.Some? && t < s'.keys[a].expiresAt.value <= t + lead
    && var e := s'.keys[a].expiresAt.value;
       var k := s'.keys[|s.keys|];
       k == Key(k.id, Pending, Some(e), Some(e + s.interval.value * 86_400_000_000), None, None, None, None,
                Some(s'.keys[a].id), Automatic, true)
  }

  ghost predicate NoneWaits(s: Slot, s': Slot) {
    |s.keys| <= |s'.keys| && forall i :: 0 <= i < |s.keys| ==> !s'.keys[i].status.Pending?
  }

  ghost predicate Prepared(p: Project, s: Slot, s': Slot, from: Time, to: Time, lead: Time) {
    && GatewayReady(p) && s.enabled && Rotates(p, s) && s.blockedAt.None? && NoneWaits(s, s')
    && exists t: Time, a: nat :: from <= t <= to && PreparedAt(s, s', t, a, lead)
  }

  // Why a slot is blocked: a machine-made replacement that is due unconfirmed or has
  // expired, or an active key that expired with no replacement.
  ghost predicate GoneWrong(p: Project, s: Slot, keys: seq<Key>, i: nat, t: Time)
    requires i < |keys|
  {
    var k := keys[i];
    || (k.status.Pending? && k.trigger.Automatic?
        && ((k.confirmedAt.None? && k.activateAt.Some? && k.activateAt.value <= t)
            || (k.expiresAt.Some? && k.expiresAt.value <= t)))
    || (Rotates(p, s) && k.status.Active? && k.expiresAt.Some? && k.expiresAt.value <= t
        && forall j :: 0 <= j < |keys| ==> !keys[j].status.Pending?)
  }

  ghost predicate Blocked(p: Project, s: Slot, s': Slot, from: Time, to: Time) {
    && GatewayReady(p) && s.enabled && s.blockedAt.None?
    && s'.blockedAt.Some? && from <= s'.blockedAt.value <= to
    && exists i: nat :: i < |s'.keys| && GoneWrong(p, s, s'.keys, i, s'.blockedAt.value)
  }

  ghost predicate ScannedSlot(p: Project, s: Slot, s': Slot, from: Time, to: Time, lead: Time) {
    && s' == s.(keys := s'.keys, blockedAt := s'.blockedAt)
    && (AllSwept(s, s', from) || (GatewayReady(p) && s.enabled && Turned(s, s', from, to)))
    && (|s'.keys| == |s.keys| || Prepared(p, s, s', from, to, lead))
    && (s'.blockedAt == s.blockedAt || Blocked(p, s, s', from, to))
  }

  // No project, slot or key disappears, and no slot is changed in another way.
  ghost predicate Scanned(w: World, w': World, from: Time, to: Time, lead: Time) {
    && w'.projects.Keys == w.projects.Keys && w'.slots.Keys == w.slots.Keys
    && (forall pid :: pid in w.projects ==> w'.projects[pid] == w.projects[pid].(version := w'.projects[pid].version))
    && (forall sid :: sid in w.slots ==>
          w.slots[sid].project in w.projects
          && ScannedSlot(w.projects[w.slots[sid].project], w.slots[sid], w'.slots[sid], from, to, lead))
  }

  // ---------------------------------------------------------------------------
  // What a scan within the instant `now` must have done when it stops below its bound

  ghost predicate Ripe(k: Key, now: Time) {
    && k.status.Pending? && k.confirmedAt.Some? && k.activateAt.Some? && k.activateAt.value <= now
    && (k.expiresAt.None? || now < k.expiresAt.value)
  }

  ghost predicate ExpiresWithin(k: Key, now: Time, lead: Time) {
    k.expiresAt.Some? && now < k.expiresAt.value <= now + lead
  }

  // The key in use with nothing behind it, or the one about to be.
  ghost predicate Leads(s: Slot, i: nat, now: Time)
    requires i < |s.keys|
  {
    || Ripe(s.keys[i], now)
    || (s.keys[i].status.Active? && forall j :: 0 <= j < |s.keys| ==> !s.keys[j].status.Pending?)
  }

  ghost predicate CompleteSlot(p: Project, s: Slot, s': Slot, now: Time, lead: Time) {
    && |s.keys| <= |s'.keys|
    // due keys are active
    && (forall i :: 0 <= i < |s.keys| && Ripe(s.keys[i], now) ==>
          s'.keys[i].status.Active? && s'.keys[i].activatedAt == Some(now))
    // what went wrong is blocked
    && (forall i: nat :: i < |s.keys| && s.blockedAt.None? && GoneWrong(p, s, s.keys, i, now) ==> s'.blockedAt == Some(now))
    // the leading key has its replacement
    && (forall i: nat :: i < |s.keys| && s.blockedAt.None? && Rotates(p, s) && ExpiresWithin(s.keys[i], now, lead) && Leads(s, i, now) ==>
          |s'.keys| == |s.keys| + 1 && s'.keys[|s.keys|].status.Pending? && s'.keys[|s.keys|].trigger.Automatic?
          && s'.keys[|s.keys|].activateAt == s.keys[i].expiresAt && s'.keys[|s.keys|].predecessor == Some(s.keys[i].id))
  }

  ghost predicate Complete(w: World, w': World, now: Time, lead: Time) {
    forall sid ::
      (sid in w.slots && sid in w'.slots && w.slots[sid].project in w.projects
       && GatewayReady(w.projects[w.slots[sid].project]) && w.slots[sid].enabled)
      ==> CompleteSlot(w.projects[w.slots[sid].project], w.slots[sid], w'.slots[sid], now, lead)
  }

  // ---------------------------------------------------------------------------
  // Each step of a scan stays within what it may do

  lemma SweepScanned(p: Project, s: Slot, now: Time, lead: Time)
    ensures ScannedSlot(p, s, PurgeReveals(s, now), now, now, lead)
  {
  }

  lemma ScannedLater(p: Project, s: Slot, s': Slot, from: Time, to: Time, later: Time, lead: Time)
    requires ScannedSlot(p, s, s', from, to, lead) && to <= later
    ensures ScannedSlot(p, s, s', from, later, lead)
  {
    if Turned(s, s', from, to) {
      var t: Time, a: nat, b: nat :| from <= t <= to && TurnedAt(s, s', from, t, a, b);
      assert from <= t <= later && TurnedAt(s, s', from, t, a, b);
    }
    if Prepared(p, s, s', from, to, lead) {
      var t: Time, a: nat :| from <= t <= to && PreparedAt(s, s', t, a, lead);
      assert from <= t <= later && PreparedAt(s, s', t, a, lead);
    }
  }

  lemma WorldScannedLater(w: World, w': World, from: Time, to: Time, later: Time, lead: Time)
    requires Scanned(w, w', from, to, lead) && to <= later
    ensures Scanned(w, w', from, later, lead)
  {
    forall sid | sid in w.slots
      ensures ScannedSlot(w.projects[w.slots[sid].project], w.slots[sid], w'.slots[sid], from, later, lead)
    {
      ScannedLater(w.projects[w.slots[sid].project], w.slots[sid], w'.slots[sid], from, to, later, lead);
    }
    hide ScannedSlot;
  }

  lemma ScannedFacts(w: World, w': World, sid: nat, from: Time, to: Time, lead: Time)
    requires Scanned(w, w', from, to, lead) && sid in w.slots
    ensures sid in w'.slots && w'.slots[sid].project == w.slots[sid].project && w.slots[sid].project in w.projects
    ensures w.slots[sid].project in w'.projects && w'.slots[sid].enabled == w.slots[sid].enabled
    ensures var p, p' := w.projects[w.slots[sid].project], w'.projects[w.slots[sid].project]; p' == p.(version := p'.version)
    ensures ScannedSlot(w.projects[w.slots[sid].project], w.slots[sid], w'.slots[sid], from, to, lead)
  {
  }

  // One more slot has been handled.
  lemma OneMoreScanned(w0: World, w: World, w': World, sid: nat, from: Time, to: Time, lead: Time)
    requires Scanned(w0, w, from, to, lead) && sid in w.slots
    requires w'.slots.Keys == w.slots.Keys && forall x :: x in w.slots && x != sid ==> w'.slots[x] == w.slots[x]
    requires w'.projects.Keys == w.projects.Keys
    requires forall pid :: pid in w.projects ==> w'.projects[pid] == w.projects[pid].(version := w'.projects[pid].version)
    requires ScannedSlot(w0.projects[w0.slots[sid].project], w0.slots[sid], w'.slots[sid], from, to, lead)
    ensures Scanned(w0, w', from, to, lead)
  {
    hide ScannedSlot;
  }

  // A slot that can still activate a key has only been swept.
  lemma Activatable(p: Project, s0: Slot, s: Slot, from: Time, now: Time, lead: Time)
    requires SlotInv(s0, from) && SlotInv(s, now) && ScannedSlot(p, s0, s, from, now, lead)
    requires ActivatePending(s, now).Ok?
    ensures AllSwept(s0, s, from) && |s.keys| == |s0.keys| && s.blockedAt == s0.blockedAt
  {
    OnlyLastPending(s.keys, now);
    hide Chained, LastLink;
  }

  lemma ActivationScanned(p: Project, s0: Slot, s: Slot, from: Time, now: Time, lead: Time)
    requires SlotInv(s0, from) && SlotInv(s, now) && ScannedSlot(p, s0, s, from, now, lead) && from <= now
    requires GatewayReady(p) && s.enabled && ActivatePending(s, now).Ok?
    ensures ScannedSlot(p, s0, ActivatePending(s, now).value, from, now, lead)
  {
    Activatable(p, s0, s, from, now, lead);
    var s', a, b := ActivatePending(s, now).value, Find(s.keys, Active).value, Find(s.keys, Pending).value;
    hide SlotInv;
    assert TurnedAt(s0, s', from, now, a, b);
  }

  lemma BlockScanned(p: Project, s0: Slot, s: Slot, i: nat, from: Time, now: Time, lead: Time)
    requires ScannedSlot(p, s0, s, from, now, lead) && from <= now
    requires GatewayReady(p) && s.enabled && s.blockedAt.None? && i < |s.keys| && GoneWrong(p, s, s.keys, i, now)
    ensures ScannedSlot(p, s0, s.(blockedAt := Some(now)), from, now, lead)
  {
    var s' := s.(blockedAt := Some(now));
    assert GoneWrong(p, s0, s'.keys, i, now);
    if Turned(s0, s, from, now) {
      var t: Time, a: nat, b: nat :| from <= t <= now && TurnedAt(s0, s, from, t, a, b);
      assert TurnedAt(s0, s', from, t, a, b);
    }
    if Prepared(p, s0, s, from, now, lead) {
      var t: Time, a: nat :| from <= t <= now && PreparedAt(s0, s, t, a, lead);
      assert PreparedAt(s0, s', t, a, lead);
    }
  }

  lemma PreparationScanned(p: Project, s0: Slot, s: Slot, id: nat, from: Time, now: Time, lead: Time)
    requires SlotInv(s, now) && ScannedSlot(p, s0, s, from, now, lead) && from <= now
    requires GatewayReady(p) && s.enabled && s.blockedAt.None? && Rotates(p, s) && Find(s.keys, Pending).None?
    requires Find(s.keys, Active).Some? && ExpiresWithin(s.keys[Find(s.keys, Active).value], now, lead)
    ensures var e := s.keys[Find(s.keys, Active).value].expiresAt.value;
      && PrepareRotation(s, now, id, e, false, Automatic).Ok?
      && ScannedSlot(p, s0, PrepareRotation(s, now, id, e, false, Automatic).value, from, now, lead)
  {
    hide SlotInv;
    var a := Find(s.keys, Active).value;
    var s' := PrepareRotation(s, now, id, s.keys[a].expiresAt.value, false, Automatic).value;
    assert |s.keys| == |s0.keys|;
    assert PreparedAt(s0, s', now, a, lead);
    assert AllSwept(s0, s, from) ==> AllSwept(s0, s', from);
    if Turned(s0, s, from, now) {
      var t: Time, a: nat, b: nat :| from <= t <= now && TurnedAt(s0, s, from, t, a, b);
      assert TurnedAt(s0, s', from, t, a, b);
    }
  }
}
