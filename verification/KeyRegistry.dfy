// The two key tables as the service edits them: each request runs its statements on a
// working copy of the slot row and its key rows, and commits only when none refuses.
module KeyRegistry {
  import opened Prelude
  import opened KeySlots
  import opened KeySlotProofs
  import opened KeyWorld
  import opened KeyRuns

  // UPDATE project_api_keys SET status = 'revoked' WHERE slot_id = $1 AND status = ...
  function RevokeWhere(keys: seq<Key>, status: KeyStatus, now: Time): seq<Key> {
    seq(|keys|, i requires 0 <= i < |keys| => if keys[i].status == status then Revoke(keys[i], now) else keys[i])
  }

  // The unique partial indexes of project_api_keys.
  ghost predicate Indexed(keys: seq<Key>) {
    forall i, j :: 0 <= i < |keys| && 0 <= j < |keys| && keys[i].status == keys[j].status && !keys[i].status.Revoked? ==> i == j
  }

  // The lifecycle maintains what the indexes demand without relying on them.
  lemma IndexesHold(s: Slot, now: Time)
    requires SlotInv(s, now) || Staged(s)
    ensures Indexed(s.keys)
  {
  }

  // Under the indexes the set-oriented statement revokes at most one row.
  lemma RevokeWhereIsCut(keys: seq<Key>, status: KeyStatus, now: Time)
    requires Indexed(keys) && !status.Revoked?
    ensures RevokeWhere(keys, status, now) == Cut(keys, status, now)
  {
  }

  // Revoking the pending row leaves the rows indexed and the active row in place.
  lemma RevokePendingRow(keys: seq<Key>, now: Time)
    requires Indexed(keys) && Find(keys, Pending).Some?
    ensures RevokeWhere(keys, Pending, now) == Cut(keys, Pending, now)
    ensures Indexed(Cut(keys, Pending, now))
    ensures Find(Cut(keys, Pending, now), Active) == Find(keys, Active)
    ensures forall i :: 0 <= i < |keys| ==> Cut(keys, Pending, now)[i].id == keys[i].id
  {
    var p := Find(keys, Pending).value;
    RevokeWhereIsCut(keys, Pending, now);
    FindOther(keys, p, Revoke(keys[p], now));
    forall i, j | 0 <= i < |keys| && 0 <= j < |keys|
      && Cut(keys, Pending, now)[i].status == Cut(keys, Pending, now)[j].status && !Cut(keys, Pending, now)[i].status.Revoked?
      ensures i == j
    {
      assert keys[i].status == keys[j].status;
    }
  }

  ghost predicate Committed(before: World, after: World, spec: Result<World, Refusal>, refused: Option<Refusal>) {
    match spec
    case Ok(w) => after == w && refused.None?
    case Err(e) => after == before && refused == Some(e)
  }

  class Registry {
    var projects: map<nat, Project>
    var slots: map<nat, Slot>
    var nextId: nat

    ghost function State(): World
      reads this
    {
      World(projects, slots, nextId)
    }

    constructor ()
      ensures State() == EMPTY
    {
      projects, slots, nextId := map[], map[], 0;
    }

    ghost predicate IndexedSlot(sid: nat)
      reads this
    {
      sid in slots ==> Indexed(slots[sid].keys)
    }

    // The join that every slot operation starts with.
    predicate Ready(pid: nat, sid: nat)
      reads this
    {
      && pid in projects && sid in slots && slots[sid].project == pid && slots[sid].enabled
      && projects[pid].activatedAt.Some? && projects[pid].readyAt.Some?
    }

    method Commit(pid: nat, sid: nat, slot: Slot)
      requires pid in projects
      modifies this
      ensures State() == Store(old(State()), pid, sid, Ok(slot)).value
    {
      slots := slots[sid := slot];
      projects := projects[pid := projects[pid].(version := projects[pid].version + 1)];
      nextId := nextId + 1;
    }

    method RotateSlotImmediately(pid: nat, sid: nat, now: Time) returns (refused: Option<Refusal>)
      requires IndexedSlot(sid)
      modifies this
      ensures Committed(old(State()), State(), OnSlotIn(old(State()), now, pid, sid, DoRotateNow), refused)
    {
      if !Ready(pid, sid) { return Some(SlotNotFound); }
      var slot := slots[sid].(blockedAt := None);
      var pending := Find(slot.keys, Pending);
      var effectivePending: Option<nat> := None;
      if pending.Some? {
        var k := slot.keys[pending.value];
        if k.confirmedAt.None? || k.activateAt.None? || k.activateAt.value > now { return Some(PendingExists); }
        RevokePendingRow(slot.keys, now);
        slot := slot.(keys := RevokeWhere(slot.keys, Pending, now));
        effectivePending := Some(k.id);
      }
      var active := Find(slot.keys, Active);
      if active.None? { return Some(NoActiveKey); }
      var activeId := slot.keys[active.value].id;
      RevokeWhereIsCut(slot.keys, Active, now);
      slot := slot.(keys := RevokeWhere(slot.keys, Active, now));
      var replaced := if effectivePending.Some? then effectivePending.value else activeId;
      slot := slot.(keys := slot.keys + [NewActive(nextId, now, slot.interval, Some(replaced), Manual)]);
      Commit(pid, sid, slot);
      refused := None;
    }

    method PrepareSlotRotation(pid: nat, sid: nat, now: Time, activateAt: Time, inline: bool, trigger: Trigger)
      returns (refused: Option<Refusal>)
      modifies this
      ensures Committed(old(State()), State(),
        OnSlotIn(old(State()), now, pid, sid, DoPrepareRotation(activateAt, inline, trigger)), refused)
    {
      if activateAt <= now { return Some(ActivateInPast); }
      if !Ready(pid, sid) { return Some(SlotNotFound); }
      var slot := slots[sid].(blockedAt := None);
      if Find(slot.keys, Pending).Some? { return Some(PendingExists); }
      var active := Find(slot.keys, Active);
      if active.None? { return Some(NoActiveKey); }
      var k := slot.keys[active.value];
      if k.expiresAt.Some? && activateAt > k.expiresAt.value { return Some(ActivateTooLate); }
      var expiresAt := ExpiryFrom(activateAt, slot.interval);
      slot := slot.(keys := slot.keys + [NewPending(nextId, now, Some(activateAt), expiresAt, Some(k.id), trigger, inline)]);
      Commit(pid, sid, slot);
      refused := None;
    }

    method ActivatePendingKey(pid: nat, sid: nat, now: Time) returns (refused: Option<Refusal>)
      requires IndexedSlot(sid)
      modifies this
      ensures Committed(old(State()), State(), OnSlotIn(old(State()), now, pid, sid, DoActivatePending), refused)
    {
      if !Ready(pid, sid) { return Some(SlotNotFound); }
      var slot := slots[sid];
      var pending := Find(slot.keys, Pending);
      if pending.None? { return Some(NoPendingKey); }
      var k := slot.keys[pending.value];
      if k.confirmedAt.None? { return Some(NotConfirmed); }
      if k.activateAt.None? || k.activateAt.value > now { return Some(NotDue); }
      if k.expiresAt.Some? && k.expiresAt.value <= now { return Some(KeyExpired); }
      var active := Find(slot.keys, Active);
      if active.None? { return Some(NoActiveKey); }
      RevokeWhereIsCut(slot.keys, Active, now);
      slot := slot.(keys := RevokeWhere(slot.keys, Active, now));
      slot := slot.(keys := slot.keys[pending.value := k.(status := Active, activatedAt := Some(now))]);
      Commit(pid, sid, slot);
      refused := None;
    }

    method ConfirmPendingKeyInstallation(pid: nat, sid: nat, key: nat, now: Time) returns (refused: Option<Refusal>)
      modifies this
      ensures Committed(old(State()), State(),
        if pid in old(State()).projects && Live(old(State()).projects[pid])
        then (match OnSlotIn(old(State()), now, pid, sid, DoConfirm(key))
              case Ok(w) => Ok(w)
              case Err(e) => Err(if e.SlotNotFound? then KeyNotFound else e))
        else ConfirmPreparedIn(old(State()), now, pid, sid, key), refused)
    {
      if !(pid in projects && sid in slots && slots[sid].project == pid && slots[sid].enabled) {
        return Some(KeyNotFound);
      }
      var p := projects[pid];
      var slot := slots[sid];
      var pending := Find(slot.keys, Pending);
      if pending.None? || slot.keys[pending.value].id != key { return Some(KeyNotFound); }
      var k := slot.keys[pending.value];
      var live := p.activatedAt.Some? && p.readyAt.Some?;
      var prepared := p.preparedAt.Some? && p.activatedAt.None? && p.cutoverAt.None? && k.trigger.Initial?;
      if !live && !prepared { return Some(KeyNotFound); }
      if k.revealedAt.None? { return Some(NotRevealed); }
      if k.confirmedAt.Some? { return Some(AlreadyConfirmed); }
      if k.expiresAt.Some? && k.expiresAt.value <= now { return Some(KeyExpired); }
      slot := slot.(keys := slot.keys[pending.value := k.(confirmedAt := Some(now))]);
      slot := slot.(blockedAt := None);
      Commit(pid, sid, slot);
      refused := None;
    }

    method CancelPendingKey(pid: nat, sid: nat, now: Time) returns (refused: Option<Refusal>)
      modifies this
      ensures Committed(old(State()), State(),
        (match OnSlotIn(old(State()), now, pid, sid, DoCancelPending)
         case Ok(w) => Ok(w)
         case Err(e) => Err(if e.SlotNotFound? then NoPendingKey else e)), refused)
    {
      if !Ready(pid, sid) { return Some(NoPendingKey); }
      var slot := slots[sid];
      var pending := Find(slot.keys, Pending);
      if pending.None? { return Some(NoPendingKey); }
      var k := slot.keys[pending.value];
      if k.confirmedAt.Some? && k.activateAt.Some? && k.activateAt.value <= now { return Some(PendingIsEffective); }
      slot := slot.(keys := slot.keys[pending.value := Revoke(k, now)]);
      slot := slot.(blockedAt := None);
      Commit(pid, sid, slot);
      refused := None;
    }

    method DisableSlot(pid: nat, sid: nat, now: Time) returns (refused: Option<Refusal>)
      modifies this
      ensures Committed(old(State()), State(), OnSlotIn(old(State()), now, pid, sid, DoDisable), refused)
    {
      if !Ready(pid, sid) { return Some(SlotNotFound); }
      var slot := slots[sid];
      slot := slot.(keys := RevokeWhere(RevokeWhere(slot.keys, Active, now), Pending, now));
      slot := slot.(enabled := false);
      slot := slot.(keys := seq(|slot.keys|, i requires 0 <= i < |slot.keys| => slot.keys[i].(revealStored := false)));
      assert slot.keys == Disable(slots[sid], now).keys;
      Commit(pid, sid, slot);
      refused := None;
    }

    method UpdateSlotPolicy(pid: nat, sid: nat, now: Time, auto: Option<bool>, interval: Option<Option<int>>, services: bool)
      returns (refused: Option<Refusal>)
      requires IndexedSlot(sid)
      modifies this
      ensures Committed(old(State()), State(),
        OnSlotIn(old(State()), now, pid, sid, DoUpdatePolicy(auto, interval, services)), refused)
    {
      hide RestartLifetime, CancelAutomatic, CancelAutomaticRows;
      if !Ready(pid, sid) { return Some(SlotNotFound); }
      var slot := slots[sid];
      if auto.None? && interval.None? && !services { return Some(PolicyEmpty); }
      var newInterval := slot.interval;
      if interval.Some? {
        newInterval := interval.value;
        if newInterval.Some? && !(MIN_INTERVAL <= newInterval.value <= MAX_INTERVAL) { return Some(BadInterval); }
      }
      var newAuto := if auto.Some? then auto.value else slot.autoRotation;
      if newInterval.None? && newAuto { return Some(AutomaticNeedsInterval); }
      if auto == Some(false) {
        slot := slot.(keys := CancelAutomaticRows(slot.keys, now));
        CancelRowsAgree(slots[sid], now);
      }
      var expiry := ChangeExpiry(slot, now, newInterval);
      if expiry.Err? { return Some(expiry.error); }
      slot := slot.(keys := expiry.value);
      slot := slot.(autoRotation := newAuto, interval := newInterval,
                    blockedAt := if newAuto || newInterval.None? then None else slot.blockedAt);
      Commit(pid, sid, slot);
      refused := None;
    }

    method CreateSlotWithKey(pid: nat, now: Time, name: string, auto: Option<bool>, interval: Option<int>) returns (refused: Option<Refusal>)
      modifies this
      ensures Committed(old(State()), State(), CreateSlotIn(old(State()), now, pid, name, auto, interval), refused)
    {
      if interval.Some? && !(MIN_INTERVAL <= interval.value <= MAX_INTERVAL) { return Some(BadInterval); }
      if pid !in projects { return Some(ProjectNotFound); }
      var p := projects[pid];
      if !(p.activatedAt.Some? && p.readyAt.Some?) { return Some(GatewayInactive); }
      var automatic := p.autoRotation;
      if auto.Some? { automatic := auto.value; }
      if interval.None? && automatic { return Some(AutomaticNeedsInterval); }
      if exists sid :: sid in slots && slots[sid].project == pid && slots[sid].name == name { return Some(StateConflict); }
      var slotId, keyId := nextId, nextId + 1;
      nextId := nextId + 2;
      slots := slots[slotId := Slot(pid, name, true, automatic, interval, None, [NewActive(keyId, now, interval, None, Manual)])];
      projects := projects[pid := p.(version := p.version + 1)];
      refused := None;
    }

    // Inserts the two default slots, each with its first key.
    method InsertDefaults(pid: nat, p: Project, publishable: Key, secret: Key)
      modifies this
      ensures State() == WithDefaults(old(State()), pid, p, publishable, secret)
    {
      var interval := Some(DEFAULT_INTERVAL);
      slots := slots[nextId := Slot(pid, "default-publishable", true, p.autoRotation, interval, None, [publishable])];
      slots := slots[nextId + 2 := Slot(pid, "default-secret", true, p.autoRotation, interval, None, [secret])];
      nextId := nextId + 4;
      projects := projects[pid := p];
    }

    method BootstrapProjectKeys(pid: nat, now: Time) returns (refused: Option<Refusal>)
      modifies this
      ensures Committed(old(State()), State(), BootstrapIn(old(State()), now, pid), refused)
    {
      hide WithDefaults;
      if pid !in projects { return Some(ProjectNotFound); }
      var p := projects[pid];
      if (exists sid :: sid in slots && slots[sid].project == pid) || p.tokenSet || p.preparedAt.Some? || p.activatedAt.Some? || p.readyAt.Some? {
        SomeSlot(State(), pid);
        return Some(AlreadyInitialized);
      }
      SomeSlot(State(), pid);
      p := p.(tokenSet := true, preparedAt := Some(now), activatedAt := Some(now), readyAt := Some(now), version := p.version + 2);
      InsertDefaults(pid, p, NewActive(nextId + 1, now, Some(DEFAULT_INTERVAL), None, Initial),
                     NewActive(nextId + 3, now, Some(DEFAULT_INTERVAL), None, Initial));
      refused := None;
    }

    method PrepareProjectKeyMigration(pid: nat, now: Time) returns (refused: Option<Refusal>)
      modifies this
      ensures Committed(old(State()), State(), PrepareMigrationIn(old(State()), now, pid), refused)
    {
      hide WithDefaults;
      if pid !in projects { return Some(ProjectNotFound); }
      var p := projects[pid];
      if p.activatedAt.Some? { return Some(AlreadyActive); }
      SomeSlot(State(), pid);
      if p.preparedAt.Some? || p.tokenSet || (exists sid :: sid in slots && slots[sid].project == pid) { return Some(AlreadyPrepared); }
      var expiry := Some(now + (PREPARATION_WINDOW + DEFAULT_INTERVAL) * DAY);
      p := p.(tokenSet := true, preparedAt := Some(now), version := p.version + 2);
      InsertDefaults(pid, p, NewPending(nextId + 1, now, None, expiry, None, Initial, false),
                     NewPending(nextId + 3, now, None, expiry, None, Initial, false));
      refused := None;
    }

    // One statement over the project's slots, committed only if it cancels something.
    method CancelProjectAutomaticPendings(pid: nat, now: Time) returns (refused: Option<Refusal>)
      requires forall sid :: sid in slots ==> Indexed(slots[sid].keys)
      modifies this
      ensures Committed(old(State()), State(), CancelProjectAutomaticIn(old(State()), now, pid), refused)
    {
      hide Indexed, CancelAutomatic, CancelAutomaticRows;
      if pid !in projects { return Some(ProjectNotFound); }
      var w := World(projects, slots, nextId);
      var rows := SlotsOf(w, pid);
      var todo, cancelled, edited := rows, false, slots;
      while todo != {}
        invariant todo <= rows && State() == w && edited.Keys == slots.Keys
        invariant forall sid :: sid in slots ==>
          edited[sid] == if sid in rows && sid !in todo then CancelAutomatic(slots[sid], now) else slots[sid]
        invariant cancelled <==> exists sid :: sid in rows && sid !in todo && CancelAutomatic(slots[sid], now) != slots[sid]
      {
        var sid :| sid in todo;
        CancelRowsAgree(slots[sid], now);
        var slot := slots[sid].(keys := CancelAutomaticRows(slots[sid].keys, now));
        if slot != slots[sid] { cancelled := true; }
        edited := edited[sid := slot];
        todo := todo - {sid};
      }
      if !cancelled { return Some(NoPendingKey); }
      slots := edited;
      projects := projects[pid := projects[pid].(version := projects[pid].version + 1)];
      refused := None;
      assert State() == CancelProjectAutomaticIn(w, now, pid).value;
    }

    method StartProjectKeyCutover(pid: nat, now: Time) returns (refused: Option<Refusal>)
      modifies this
      ensures Committed(old(State()), State(), StartCutoverIn(old(State()), now, pid), refused)
    {
      hide ValidatePrepared;
      if pid !in projects { return Some(ProjectNotFound); }
      var p := projects[pid];
      if p.preparedAt.None? { return Some(NotPrepared); }
      if p.readyAt.Some? { return Some(StateConflict); }
      if p.activatedAt.None? {
        refused := ValidatePreparedKeys(pid, now, false);
        if refused.Some? { return; }
      }
      if p.cutoverAt.None? { p := p.(cutoverAt := Some(now)); }
      projects := projects[pid := p];
      refused := None;
    }

    method MarkProjectKeysReady(pid: nat, now: Time) returns (refused: Option<Refusal>)
      modifies this
      ensures Committed(old(State()), State(), MarkReadyIn(old(State()), now, pid), refused)
    {
      if pid !in projects { return Some(ProjectNotFound); }
      var p := projects[pid];
      if p.activatedAt.None? || p.cutoverAt.None? || p.readyAt.Some? { return Some(StateConflict); }
      projects := projects[pid := p.(readyAt := Some(now))];
      refused := None;
    }

    method ClaimKeyReveal(pid: nat, sid: nat, row: nat, now: Time) returns (refused: Option<Refusal>)
      modifies this
      ensures Committed(old(State()), State(), RevealKeyIn(old(State()), now, pid, sid, row), refused)
    {
      if sid !in slots || slots[sid].project != pid || row >= |slots[sid].keys| { return Some(KeyNotFound); }
      var slot := slots[sid];
      var k := slot.keys[row];
      if !k.revealStored || k.status.Revoked? { return Some(KeyNotFound); }
      if k.revealedAt.None? { slot := slot.(keys := slot.keys[row := k.(revealedAt := Some(now))]); }
      slots := slots[sid := slot];
      refused := None;
    }

    // DELETE FROM project_api_key_reveals ... for revoked and expired keys.
    method SweepExpiredReveals(now: Time)
      modifies this
      ensures State() == SweepRevealsIn(old(State()), now)
    {
      hide PurgeReveals;
      ghost var w := State();
      var todo := slots.Keys;
      while todo != {}
        invariant todo <= slots.Keys == w.slots.Keys && projects == w.projects && nextId == w.nextId
        invariant forall sid :: sid in slots ==>
          slots[sid] == if sid in todo then w.slots[sid] else PurgeReveals(w.slots[sid], now)
      {
        var sid :| sid in todo;
        slots := slots[sid := PurgeReveals(slots[sid], now)];
        todo := todo - {sid};
      }
      assert slots == SweepRevealsIn(w, now).slots;
    }

    // SELECT ... FROM project_api_key_slots s JOIN project_api_keys k ... WHERE s.project_id = $1
    method FetchJoinedRows(pid: nat) returns (rows: seq<(nat, nat)>)
      ensures NoRepeats(rows) && forall r :: r in rows <==> r in JoinedRows(State(), pid)
    {
      rows := [];
      var todo := slots.Keys;
      while todo != {}
        invariant todo <= slots.Keys && NoRepeats(rows)
        invariant forall r :: r in rows <==> r in JoinedRows(State(), pid) && r.0 !in todo
      {
        var sid :| sid in todo;
        ghost var before := rows;
        if slots[sid].project == pid {
          var i := 0;
          while i < |slots[sid].keys|
            invariant 0 <= i <= |slots[sid].keys| && NoRepeats(rows)
            invariant forall r :: r in rows <==> r in before || (r.0 == sid && 0 <= r.1 < i)
          {
            AppendRow(rows, (sid, i));
            rows := rows + [(sid, i)];
            i := i + 1;
          }
        }
        todo := todo - {sid};
      }
    }

    // Locks and validates the prepared keyset.
    method ValidatePreparedKeys(pid: nat, now: Time, cutoverRequired: bool) returns (refused: Option<Refusal>)
      ensures refused == ValidatePrepared(State(), now, pid, cutoverRequired)
    {
      if pid !in projects { return Some(ProjectNotFound); }
      var p := projects[pid];
      if p.preparedAt.None? { return Some(NotPrepared); }
      if p.activatedAt.Some? { return Some(AlreadyActive); }
      if cutoverRequired && p.cutoverAt.None? { return Some(CutoverNotStarted); }
      var rows := SelectPrepared(pid);
      CountRows(rows, PreparedRows(State(), pid));
      var names := set r | r in rows :: slots[r.0].name;
      assert names == RowNames(State(), PreparedRows(State(), pid));
      hide JoinedRows, PreparedRows, RowNames;
      if names != DEFAULT_NAMES || |rows| != 2 { return Some(KeysetInconsistent); }
      if exists r :: r in rows && (slots[r.0].keys[r.1].revealedAt.None? || slots[r.0].keys[r.1].confirmedAt.None?) {
        return Some(NotRevealedOrConfirmed);
      }
      if exists r :: r in rows && !Unexpired(slots[r.0].keys[r.1], now) { return Some(KeyExpired); }
      refused := None;
    }

    // AND s.status = 'active' AND k.status = 'pending' AND k.rotation_trigger = 'initial'
    method SelectPrepared(pid: nat) returns (rows: seq<(nat, nat)>)
      ensures NoRepeats(rows) && forall r :: r in rows <==> r in PreparedRows(State(), pid)
    {
      var joined := FetchJoinedRows(pid);
      rows := [];
      var j := 0;
      while j < |joined|
        invariant 0 <= j <= |joined| && NoRepeats(rows)
        invariant forall r :: r in rows <==> r in joined[..j] && r in PreparedRows(State(), pid)
      {
        var r := joined[j];
        assert r in joined && joined[..j + 1] == joined[..j] + [r];
        RowIsNew(joined, j);
        if slots[r.0].enabled && slots[r.0].keys[r.1].status.Pending? && slots[r.0].keys[r.1].trigger.Initial? {
          AppendRow(rows, r);
          rows := rows + [r];
        }
        j := j + 1;
      }
      assert joined[..j] == joined;
    }

    // UPDATE project_api_keys SET status = 'active', ... for each row in turn.
    method ActivateRows(rows: seq<(nat, nat)>, now: Time)
      requires NoRepeats(rows) && forall r :: r in rows ==> r.0 in slots && r.1 < |slots[r.0].keys|
      modifies this`slots
      ensures slots.Keys == old(slots).Keys
      ensures forall sid :: sid in slots ==>
        ActivatedAt(old(slots)[sid], slots[sid], PositionsIn(rows, sid), now)
    {
      ghost var before := slots;
      var j := 0;
      while j < |rows|
        invariant 0 <= j <= |rows| && slots.Keys == before.Keys
        invariant forall sid :: sid in slots ==>
          ActivatedAt(before[sid], slots[sid], PositionsIn(rows[..j], sid), now)
      {
        var r := rows[j];
        assert r in rows && rows[..j + 1] == rows[..j] + [r];
        RowIsNew(rows, j);
        var slot := slots[r.0];
        assert slot.keys[r.1] == before[r.0].keys[r.1];
        slots := slots[r.0 := slot.(keys := slot.keys[r.1 := ActivateRow(slot.keys[r.1], now, slot.interval)])];
        j := j + 1;
      }
      assert rows[..j] == rows;
    }

    // Confirms the whole prepared keyset in one transaction.
    method ActivatePreparedProjectKeys(pid: nat, now: Time) returns (refused: Option<Refusal>)
      modifies this
      ensures Committed(old(State()), State(), ActivatePreparedIn(old(State()), now, pid), refused)
    {
      ghost var w := State();
      refused := ValidatePreparedKeys(pid, now, true);
      if refused.Some? { return; }
      var rows := SelectPrepared(pid);
      PreparedAreRows(w, pid, rows);
      hide ValidatePrepared, ActivateInitial, PreparedRows, ActivatedAt, NoRepeats;
      ActivateRows(rows, now);
      RowsActivated(w, pid, rows, slots, now);
      hide ActivatePreparedIn;
      projects := projects[pid := projects[pid].(activatedAt := Some(now), version := projects[pid].version + 1)];
    }

    // Checks the prepared rows, then deletes the project's slots with their keys.
    method AbortPreparedProjectKeys(pid: nat, now: Time) returns (refused: Option<Refusal>)
      modifies this
      ensures Committed(old(State()), State(), AbortMigrationIn(old(State()), now, pid), refused)
    {
      if pid !in projects { return Some(ProjectNotFound); }
      var p := projects[pid];
      if p.preparedAt.None? { return Some(NotPrepared); }
      if p.activatedAt.Some? || p.cutoverAt.Some? || p.readyAt.Some? { return Some(CutoverStarted); }
      var rows := FetchJoinedRows(pid);
      CountRows(rows, JoinedRows(State(), pid));
      var names := set r | r in rows :: slots[r.0].name;
      assert names == RowNames(State(), JoinedRows(State(), pid));
      if |rows| != 2 || names != DEFAULT_NAMES ||
         exists r :: r in rows && !(slots[r.0].keys[r.1].status.Pending? && slots[r.0].keys[r.1].trigger.Initial?)
      {
        return Some(KeysetInconsistent);
      }
      DeleteSlots(pid);
      projects := projects[pid := p.(tokenSet := false, preparedAt := None, version := p.version + 1)];
      refused := None;
    }

    // DELETE FROM project_api_key_slots WHERE project_id = $1, with the cascade.
    method DeleteSlots(pid: nat)
      modifies this`slots
      ensures slots == map sid | sid in old(slots) && old(slots)[sid].project != pid :: old(slots)[sid]
    {
      var all, todo := slots, slots.Keys;
      while todo != {}
        invariant todo <= all.Keys
        invariant slots == map sid | sid in all && (sid in todo || all[sid].project != pid) :: all[sid]
      {
        var sid :| sid in todo;
        if all[sid].project == pid { slots := slots - {sid}; }
        todo := todo - {sid};
      }
    }
  }

  function PositionsIn(rows: seq<(nat, nat)>, sid: nat): set<nat> {
    set r | r in rows && r.0 == sid :: r.1
  }

  // The rows at these positions were activated, and nothing else changed.
  ghost predicate ActivatedAt(s: Slot, s': Slot, at: set<nat>, now: Time) {
    && s' == s.(keys := s'.keys) && |s'.keys| == |s.keys|
    && forall i :: 0 <= i < |s.keys| ==> s'.keys[i] == if i in at then ActivateRow(s.keys[i], now, s.interval) else s.keys[i]
  }

  lemma PreparedAreRows(w: World, pid: nat, rows: seq<(nat, nat)>)
    requires forall r :: r in rows <==> r in PreparedRows(w, pid)
    ensures forall r :: r in rows ==> r.0 in w.slots && r.1 < |w.slots[r.0].keys|
  {
  }

  // Activating the selected rows activates the initial keys of the project's slots.
  lemma RowsActivated(w: World, pid: nat, rows: seq<(nat, nat)>, slots: map<nat, Slot>, now: Time)
    requires forall r :: r in rows <==> r in PreparedRows(w, pid)
    requires slots.Keys == w.slots.Keys
    requires forall sid :: sid in slots ==> ActivatedAt(w.slots[sid], slots[sid], PositionsIn(rows, sid), now)
    requires ValidatePrepared(w, now, pid, true).None?
    ensures var p := w.projects[pid];
      ActivatePreparedIn(w, now, pid)
      == Ok(w.(projects := w.projects[pid := p.(activatedAt := Some(now), version := p.version + 1)], slots := slots))
  {
    forall sid | sid in w.slots
      ensures slots[sid] == if w.slots[sid].project == pid then ActivateInitial(w.slots[sid], now) else w.slots[sid]
    {
      var at := PositionsIn(rows, sid);
      forall i | 0 <= i < |w.slots[sid].keys|
        ensures i in at <==> w.slots[sid].project == pid && w.slots[sid].enabled && InitialPending(w.slots[sid].keys[i])
      {
        assert (sid, i) in rows <==> (sid, i) in PreparedRows(w, pid);
      }
      hide PreparedRows, JoinedRows;
      ActivatedInitial(w.slots[sid], slots[sid], at, now, w.slots[sid].project == pid);
    }
    hide ActivateInitial, ActivatedAt, ValidatePrepared, PreparedRows, PositionsIn;
    assert slots == ActivatePreparedIn(w, now, pid).value.slots;
  }

  lemma ActivatedInitial(s: Slot, s': Slot, at: set<nat>, now: Time, owned: bool)
    requires ActivatedAt(s, s', at, now)
    requires forall i :: 0 <= i < |s.keys| ==> (i in at <==> owned && s.enabled && InitialPending(s.keys[i]))
    ensures s' == if owned then ActivateInitial(s, now) else s
  {
    assert s'.keys == (if owned then ActivateInitial(s, now) else s).keys;
  }

  predicate NoRepeats(rows: seq<(nat, nat)>) { forall i, j :: 0 <= i < j < |rows| ==> rows[i] != rows[j] }

  lemma AppendRow(rows: seq<(nat, nat)>, r: (nat, nat))
    requires NoRepeats(rows) && r !in rows
    ensures NoRepeats(rows + [r])
  {
  }

  lemma RowIsNew(rows: seq<(nat, nat)>, j: nat)
    requires NoRepeats(rows) && j < |rows|
    ensures rows[j] !in rows[..j]
  {
  }

  // len(rows) counts the distinct rows.
  lemma {:induction false} CountRows(rows: seq<(nat, nat)>, all: set<(nat, nat)>)
    requires NoRepeats(rows) && forall r :: r in rows <==> r in all
    ensures |rows| == |all|
  {
    if rows == [] {
      assert all == {};
    } else {
      var n := |rows| - 1;
      RowIsNew(rows, n);
      assert forall r :: r in rows <==> r in rows[..n] || r == rows[n];
      CountRows(rows[..n], all - {rows[n]});
    }
  }

  lemma SomeSlot(w: World, pid: nat)
    ensures SlotsOf(w, pid) == {} <==> !(exists sid :: sid in w.slots && w.slots[sid].project == pid)
  {
    forall sid | sid in w.slots && w.slots[sid].project == pid
      ensures sid in SlotsOf(w, pid)
    {
    }
  }

  // The expiry part of a policy update, run only when the interval really changes.
  method ChangeExpiry(slot: Slot, now: Time, interval: Option<int>) returns (r: Result<seq<Key>, Refusal>)
    ensures match RestartLifetime(slot, now, interval)
      case Ok(s) => r == Ok(s.keys) && s == slot.(keys := s.keys)
      case Err(e) => r == Err(e)
  {
    if interval == slot.interval { return Ok(slot.keys); }
    if Find(slot.keys, Pending).Some? { return Err(PendingExists); }
    var active := Find(slot.keys, Active);
    if active.None? { return Err(NoActiveKey); }
    var k := slot.keys[active.value];
    if k.expiresAt.Some? && k.expiresAt.value <= now { return Err(KeyExpired); }
    r := Ok(slot.keys[active.value := k.(expiresAt := ExpiryFrom(now, interval))]);
  }

  // The bulk statement that drops machine-made replacements nobody uses yet.
  function CancelAutomaticRows(keys: seq<Key>, now: Time): seq<Key> {
    seq(|keys|, i requires 0 <= i < |keys| =>
      var k := keys[i];
      if k.status.Pending? && k.trigger.Automatic? &&
         !(k.confirmedAt.Some? && k.activateAt.Some? && k.activateAt.value <= now)
      then Revoke(k, now) else k)
  }

  lemma CancelRowsAgree(s: Slot, now: Time)
    requires Indexed(s.keys)
    ensures s.(keys := CancelAutomaticRows(s.keys, now)) == CancelAutomatic(s, now)
  {
  }
}
