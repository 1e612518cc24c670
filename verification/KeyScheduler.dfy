// The automatic rotation scan: five phases that activate due keys, block schedules
// that went wrong, and prepare replacements, at most 100 transitions a scan.
module KeyScheduler {
  import opened Prelude
  import opened KeySlots
  import opened KeySlotProofs
  import opened KeyVisibility
  import opened KeyWorld
  import opened KeyRuns
  import opened KeyRegistry
  import opened KeyScanEffects
  import opened KeyOperations

  const MAX_TRANSITIONS := 100
  const BATCH := 10

  datatype Phase = ActivateDue | BlockUnconfirmed | BlockExpiredPending | BlockExpiredActive | PrepareDue

  function Rank(ph: Phase): nat {
    match ph
    case ActivateDue => 0
    case BlockUnconfirmed => 1
    case BlockExpiredPending => 2
    case BlockExpiredActive => 3
    case PrepareDue => 4
  }

  // ---------------------------------------------------------------------------
  // The five queries

  predicate HasPending(keys: seq<Key>) {
    exists j :: 0 <= j < |keys| && keys[j].status.Pending?
  }

  // The row condition of a phase's query, for the slot's row i.
  predicate RowMatches(p: Project, s: Slot, i: nat, ph: Phase, now: Time, lead: Time)
    requires i < |s.keys|
  {
    var k := s.keys[i];
    match ph
    case ActivateDue =>
      k.status.Pending? && k.confirmedAt.Some? && Due(k, now) && Unexpired(k, now)
    case BlockUnconfirmed =>
      s.blockedAt.None? && k.status.Pending? && k.trigger.Automatic? && k.confirmedAt.None? && Due(k, now)
    case BlockExpiredPending =>
      s.blockedAt.None? && k.status.Pending? && k.trigger.Automatic? && k.expiresAt.Some? && k.expiresAt.value <= now
    case BlockExpiredActive =>
      && p.autoRotation && s.autoRotation && s.interval.Some? && s.blockedAt.None?
      && k.status.Active? && k.expiresAt.Some? && k.expiresAt.value <= now && !HasPending(s.keys)
    case PrepareDue =>
      && p.autoRotation && s.autoRotation && s.interval.Some? && s.blockedAt.None?
      && k.status.Active? && k.expiresAt.Some? && now < k.expiresAt.value <= now + lead && !HasPending(s.keys)
  }

  predicate SlotMatches(p: Project, s: Slot, ph: Phase, now: Time, lead: Time) {
    Live(p) && s.enabled && exists i: nat :: i < |s.keys| && RowMatches(p, s, i, ph, now, lead)
  }

  predicate Selected(w: World, sid: nat, ph: Phase, now: Time, lead: Time) {
    && sid in w.slots && w.slots[sid].project in w.projects
    && SlotMatches(w.projects[w.slots[sid].project], w.slots[sid], ph, now, lead)
  }

  ghost predicate Quiet(w: World, ph: Phase, now: Time, lead: Time) {
    forall sid :: sid in w.slots ==> !Selected(w, sid, ph, now, lead)
  }

  // ---------------------------------------------------------------------------
  // What one selected row's handler does to its slot

  function Handle(s: Slot, ph: Phase, now: Time, id: nat): Result<Slot, Refusal> {
    match ph
    case ActivateDue => Perform(s, DoActivatePending, now, id)
    case PrepareDue =>
      var a := Find(s.keys, Active);
      if a.None? || s.keys[a.value].expiresAt.None? then Err(NoActiveKey)
      else Perform(s, DoPrepareRotation(s.keys[a.value].expiresAt.value, false, Automatic), now, id)
    case _ => Ok(s.(blockedAt := Some(now)))
  }

  // A selected row meets its handler's preconditions.
  lemma HandlerNeverRefuses(p: Project, s: Slot, ph: Phase, now: Time, lead: Time, id: nat)
    requires SlotInv(s, now) && SlotMatches(p, s, ph, now, lead)
    ensures Handle(s, ph, now, id).Ok?
  {
  }

  // The handler leaves nothing for its own phase, and nothing new for earlier ones.
  lemma HandledIsQuiet(p: Project, s: Slot, ph: Phase, now: Time, lead: Time, id: nat)
    requires SlotInv(s, now) && SlotMatches(p, s, ph, now, lead)
    requires Handle(s, ph, now, id).Ok?
    ensures !SlotMatches(p, Handle(s, ph, now, id).value, ph, now, lead)
  {
    OnlyLastPending(s.keys, now);
    match ph
    case ActivateDue =>
      ActivatedRows(s, now);
    case PrepareDue =>
      var s' := Handle(s, ph, now, id).value;
      assert s'.keys[|s.keys|].status.Pending?;
    case _ =>
  }

  lemma EarlierStaysQuiet(p: Project, s: Slot, ph: Phase, earlier: Phase, now: Time, lead: Time, id: nat)
    requires SlotInv(s, now) && SlotMatches(p, s, ph, now, lead)
    requires Rank(earlier) < Rank(ph) && !SlotMatches(p, s, earlier, now, lead)
    requires Handle(s, ph, now, id).Ok?
    ensures !SlotMatches(p, Handle(s, ph, now, id).value, earlier, now, lead)
  {
    var s' := Handle(s, ph, now, id).value;
    if ph.PrepareDue? {
      PreparedStaysQuiet(p, s, earlier, now, lead, id);
    } else {
      forall i: nat | i < |s'.keys| && RowMatches(p, s', i, earlier, now, lead)
        ensures false
      {
        assert RowMatches(p, s, i, earlier, now, lead);
      }
    }
  }

  lemma PreparedStaysQuiet(p: Project, s: Slot, earlier: Phase, now: Time, lead: Time, id: nat)
    requires SlotInv(s, now) && SlotMatches(p, s, PrepareDue, now, lead)
    requires !earlier.PrepareDue?
    requires Handle(s, PrepareDue, now, id).Ok?
    ensures !SlotMatches(p, Handle(s, PrepareDue, now, id).value, earlier, now, lead)
  {
  }

  // Clients cannot see a handler run, now or at any later instant.
  lemma HandlerInvisible(p: Project, s: Slot, ph: Phase, now: Time, lead: Time, id: nat, i: nat, t: Time)
    requires SlotInv(s, now) && SlotMatches(p, s, ph, now, lead)
    requires Handle(s, ph, now, id).Ok? && now <= t
    ensures |s.keys| <= |Handle(s, ph, now, id).value.keys|
    ensures i < |Handle(s, ph, now, id).value.keys| ==>
      (Accepted(Handle(s, ph, now, id).value, i, t) <==> i < |s.keys| && Accepted(s, i, t))
  {
    var s' := Handle(s, ph, now, id).value;
    match ph
    case ActivateDue =>
      if i < |s.keys| { ActivationInvisible(s, now, i, t); }
    case PrepareDue =>
      var a := Find(s.keys, Active).value;
      if i <= |s.keys| {
        PreparationInvisible(s, now, id, s.keys[a].expiresAt.value, false, Automatic, i, t);
      }
    case _ =>
  }

  lemma HandlerFacts(p: Project, s: Slot, ph: Phase, now: Time, lead: Time, id: nat)
    requires SlotInv(s, now) && IdsBelow(s.keys, id) && SlotMatches(p, s, ph, now, lead)
    requires Handle(s, ph, now, id).Ok?
    ensures var s' := Handle(s, ph, now, id).value;
      SlotInv(s', now) && Keeps(s, s', now) && IdsBelow(s'.keys, id + 1) && s'.project == s.project
  {
    match ph
    case ActivateDue => PerformFacts(s, DoActivatePending, now, id);
    case PrepareDue =>
      var a := Find(s.keys, Active).value;
      PerformFacts(s, DoPrepareRotation(s.keys[a].expiresAt.value, false, Automatic), now, id);
    case _ =>
      SetColumns(s, s.(blockedAt := Some(now)), now);
  }

  // ---------------------------------------------------------------------------
  // The same over all slots

  // The project of the slot gains a keyset version when its keys change.
  function Handled(w: World, sid: nat, ph: Phase, now: Time): Result<World, Refusal>
    requires sid in w.slots && w.slots[sid].project in w.projects
  {
    var pid := w.slots[sid].project;
    match Handle(w.slots[sid], ph, now, w.nextId)
    case Err(e) => Err(e)
    case Ok(s) =>
      if ph.ActivateDue? || ph.PrepareDue? then Store(w, pid, sid, Ok(s))
      else Ok(w.(slots := w.slots[sid := s]))
  }

  ghost predicate SameAdmissions(w: World, w': World, now: Time) {
    forall sid: nat, row: nat, t: Time :: now <= t ==> (Admits(w', sid, row, t) <==> Admits(w, sid, row, t))
  }

  // Everything a scan relies on: the invariant, clients seeing what they saw when the scan
  // began, slots changed only as a scan may, and, while the clock still reads `start`, the earlier phases drained.
  ghost predicate ScanInv(w0: World, w: World, drained: nat, start: Time, now: Time, lead: Time) {
    && start <= now && WorldInv(w0, start) && WorldInv(w, now)
    && SameAdmissions(w0, w, now) && Scanned(w0, w, start, now, lead)
    && (now == start ==> forall ph: Phase :: Rank(ph) < drained ==> Quiet(w, ph, now, lead))
  }

  lemma SelectedFacts(w: World, sid: nat, ph: Phase, now: Time, lead: Time)
    requires WorldInv(w, now) && Selected(w, sid, ph, now, lead)
    ensures var s := w.slots[sid]; var p := w.projects[s.project];
      && Reaches(w, s.project, sid) && Live(p) && SlotMatches(p, s, ph, now, lead)
      && SlotInv(s, now) && IdsBelow(s.keys, w.nextId) && sid < w.nextId
  {
  }

  // A handler's transaction as a request of the lifecycle.
  function RequestOf(w: World, sid: nat, ph: Phase): Request
    requires sid in w.slots
  {
    var s := w.slots[sid];
    var a := Find(s.keys, Active);
    match ph
    case ActivateDue => OnSlot(s.project, sid, DoActivatePending)
    case PrepareDue =>
      OnSlot(s.project, sid, DoPrepareRotation(
        if a.Some? && s.keys[a.value].expiresAt.Some? then s.keys[a.value].expiresAt.value else 0, false, Automatic))
    case _ => BlockSlot(s.project, sid)
  }

  // Every step of a scan is a step of the runs whose safety is proved.
  lemma HandledIsARequest(w: World, sid: nat, ph: Phase, now: Time, lead: Time)
    requires WorldInv(w, now) && Selected(w, sid, ph, now, lead)
    ensures Handled(w, sid, ph, now) == Apply(w, RequestOf(w, sid, ph), now)
    ensures Handled(w, sid, ph, now).Ok?
  {
    var s := w.slots[sid];
    SelectedFacts(w, sid, ph, now, lead);
    hide WorldInv, SlotInv, Selected, SlotMatches, Perform, Apply, Store;
    HandlerNeverRefuses(w.projects[s.project], s, ph, now, lead, w.nextId);
    match ph
    case ActivateDue => OnSlotApplies(w, s.project, sid, DoActivatePending, now);
    case PrepareDue =>
      DueExpiresLater(w.projects[s.project], s, now, lead);
      OnSlotApplies(w, s.project, sid, DoPrepareRotation(s.keys[Find(s.keys, Active).value].expiresAt.value, false, Automatic), now);
    case _ => BlockSlotApplies(w, s.project, sid, now);
  }

  lemma OnSlotApplies(w: World, pid: nat, sid: nat, op: SlotOp, now: Time)
    requires Reaches(w, pid, sid) && Live(w.projects[pid]) && (op.DoPrepareRotation? ==> now < op.activateAt)
    ensures Apply(w, OnSlot(pid, sid, op), now) == Store(w, pid, sid, Perform(w.slots[sid], op, now, w.nextId))
  {
  }

  lemma BlockSlotApplies(w: World, pid: nat, sid: nat, now: Time)
    requires Reaches(w, pid, sid) && Live(w.projects[pid])
    ensures Apply(w, BlockSlot(pid, sid), now) == Ok(w.(slots := w.slots[sid := w.slots[sid].(blockedAt := Some(now))]))
  {
  }

  lemma DueExpiresLater(p: Project, s: Slot, now: Time, lead: Time)
    requires SlotInv(s, now) && SlotMatches(p, s, PrepareDue, now, lead)
    ensures Find(s.keys, Active).Some?
    ensures var e := s.keys[Find(s.keys, Active).value].expiresAt; e.Some? && now < e.value
  {
    hide Chained, LastLink;
    var i: nat :| i < |s.keys| && RowMatches(p, s, i, PrepareDue, now, lead);
    assert Find(s.keys, Active) == Some(i);
  }

  lemma HandledInv(w: World, sid: nat, ph: Phase, now: Time, lead: Time)
    requires WorldInv(w, now) && Selected(w, sid, ph, now, lead)
    ensures Handled(w, sid, ph, now).Ok?
    ensures WorldInv(Handled(w, sid, ph, now).value, now)
  {
    hide WorldInv, Apply, Handled;
    HandledIsARequest(w, sid, ph, now, lead);
    StepKeeps(w, RequestOf(w, sid, ph), now);
  }

  // The handled slot and the rest of the world after one handler.
  ghost predicate OnlyHandled(w: World, w': World, sid: nat, s': Slot) {
    && sid in w.slots && w.slots[sid].project in w.projects
    && w'.slots == w.slots[sid := s']
    && s'.project == w.slots[sid].project
    && (w'.projects == w.projects ||
        w'.projects == w.projects[s'.project := Bump(w.projects[s'.project], 1)])
  }

  lemma HandledShape(w: World, sid: nat, ph: Phase, now: Time, lead: Time)
    requires WorldInv(w, now) && Selected(w, sid, ph, now, lead)
    ensures Handle(w.slots[sid], ph, now, w.nextId).Ok?
    ensures Handled(w, sid, ph, now).Ok?
    ensures OnlyHandled(w, Handled(w, sid, ph, now).value, sid, Handle(w.slots[sid], ph, now, w.nextId).value)
  {
    var s := w.slots[sid];
    var p := w.projects[s.project];
    assert Owned(w, sid) && SlotOk(p, s, now);
    HandlerNeverRefuses(p, s, ph, now, lead, w.nextId);
    HandlerFacts(p, s, ph, now, lead, w.nextId);
  }

  lemma OnlyHandledSelects(w: World, w': World, sid: nat, s': Slot, x: nat, ph: Phase, now: Time, lead: Time)
    requires OnlyHandled(w, w', sid, s')
    ensures x != sid ==> Selected(w', x, ph, now, lead) == Selected(w, x, ph, now, lead)
    ensures x == sid ==> Selected(w', x, ph, now, lead) == SlotMatches(w.projects[s'.project], s', ph, now, lead)
  {
    if x in w'.slots {
      SameButVersion(w.projects[s'.project], Bump(w.projects[s'.project], 1), w'.slots[x], ph, now, lead);
    }
  }

  lemma SameButVersion(p: Project, p': Project, s: Slot, ph: Phase, now: Time, lead: Time)
    requires p' == p.(version := p'.version)
    ensures SlotMatches(p', s, ph, now, lead) == SlotMatches(p, s, ph, now, lead)
  {
    forall i: nat | i < |s.keys|
      ensures RowMatches(p', s, i, ph, now, lead) == RowMatches(p, s, i, ph, now, lead)
    {
    }
  }

  lemma StillQuiet(w: World, sid: nat, ph: Phase, earlier: Phase, now: Time, lead: Time)
    requires WorldInv(w, now) && Selected(w, sid, ph, now, lead)
    requires Rank(earlier) < Rank(ph) && Quiet(w, earlier, now, lead)
    ensures Handled(w, sid, ph, now).Ok?
    ensures Quiet(Handled(w, sid, ph, now).value, earlier, now, lead)
  {
    HandledShape(w, sid, ph, now, lead);
    var w' := Handled(w, sid, ph, now).value;
    var s := w.slots[sid];
    var s' := Handle(s, ph, now, w.nextId).value;
    var p := w.projects[s.project];
    assert SlotOk(p, s, now);
    assert !Selected(w, sid, earlier, now, lead);
    EarlierStaysQuiet(p, s, ph, earlier, now, lead, w.nextId);
    forall x | x in w'.slots
      ensures !Selected(w', x, earlier, now, lead)
    {
      OnlyHandledSelects(w, w', sid, s', x, earlier, now, lead);
    }
  }

  // The handled slot leaves its phase's queue, and no other slot enters it.
  lemma QueueShrinks(w: World, sid: nat, ph: Phase, now: Time, lead: Time)
    requires WorldInv(w, now) && Selected(w, sid, ph, now, lead)
    ensures Handled(w, sid, ph, now).Ok?
    ensures forall x: nat :: Selected(Handled(w, sid, ph, now).value, x, ph, now, lead)
                    <==> x != sid && Selected(w, x, ph, now, lead)
  {
    HandledShape(w, sid, ph, now, lead);
    var w' := Handled(w, sid, ph, now).value;
    var s' := Handle(w.slots[sid], ph, now, w.nextId).value;
    var p := w.projects[w.slots[sid].project];
    assert SlotOk(p, w.slots[sid], now);
    HandledIsQuiet(p, w.slots[sid], ph, now, lead, w.nextId);
    forall x: nat
      ensures Selected(w', x, ph, now, lead) <==> x != sid && Selected(w, x, ph, now, lead)
    {
      OnlyHandledSelects(w, w', sid, s', x, ph, now, lead);
    }
  }

  lemma HandledInvisible(w: World, sid: nat, ph: Phase, now: Time, lead: Time)
    requires WorldInv(w, now) && Selected(w, sid, ph, now, lead)
    ensures Handled(w, sid, ph, now).Ok?
    ensures SameAdmissions(w, Handled(w, sid, ph, now).value, now)
  {
    HandledShape(w, sid, ph, now, lead);
    var w' := Handled(w, sid, ph, now).value;
    forall x: nat, row: nat, t: Time | now <= t
      ensures Admits(w', x, row, t) <==> Admits(w, x, row, t)
    {
      if x == sid {
        var p := w.projects[w.slots[sid].project];
        assert SlotOk(p, w.slots[sid], now);
        HandlerInvisible(p, w.slots[sid], ph, now, lead, w.nextId, row, t);
      }
    }
  }

  // The conditions of the five queries, put to the slot that one of them selects.
  lemma MatchesMean(p: Project, s: Slot, ph: Phase, now: Time, lead: Time)
    requires SlotInv(s, now) && SlotMatches(p, s, ph, now, lead)
    ensures GatewayReady(p) && s.enabled
    ensures !ph.ActivateDue? && !ph.PrepareDue? ==>
      s.blockedAt.None? && exists i: nat :: i < |s.keys| && GoneWrong(p, s, s.keys, i, now)
    ensures ph.PrepareDue? ==>
      && s.blockedAt.None? && Rotates(p, s) && Find(s.keys, Pending).None?
      && Find(s.keys, Active).Some? && ExpiresWithin(s.keys[Find(s.keys, Active).value], now, lead)
  {
    var i: nat :| i < |s.keys| && RowMatches(p, s, i, ph, now, lead);
    hide Chained, LastLink;
    if !ph.ActivateDue? && !ph.PrepareDue? { assert GoneWrong(p, s, s.keys, i, now); }
    if ph.PrepareDue? { assert Find(s.keys, Active) == Some(i); }
  }

  lemma HandlerScanned(p: Project, s0: Slot, s: Slot, ph: Phase, start: Time, now: Time, lead: Time, id: nat)
    requires SlotInv(s0, start) && SlotInv(s, now) && ScannedSlot(p, s0, s, start, now, lead) && start <= now
    requires SlotMatches(p, s, ph, now, lead) && Handle(s, ph, now, id).Ok?
    ensures ScannedSlot(p, s0, Handle(s, ph, now, id).value, start, now, lead)
  {
    MatchesMean(p, s, ph, now, lead);
    hide SlotMatches, SlotInv, ScannedSlot;
    match ph
    case ActivateDue => ActivationScanned(p, s0, s, start, now, lead);
    case PrepareDue => PreparationScanned(p, s0, s, id, start, now, lead);
    case _ =>
      var i: nat :| i < |s.keys| && GoneWrong(p, s, s.keys, i, now);
      BlockScanned(p, s0, s, i, start, now, lead);
  }

  lemma VersionIrrelevant(p: Project, q: Project, s: Slot, s': Slot, from: Time, to: Time, lead: Time)
    requires q == p.(version := q.version)
    ensures ScannedSlot(q, s, s', from, to, lead) == ScannedSlot(p, s, s', from, to, lead)
  {
    hide AllSwept, Turned, NoneWaits, PreparedAt;
    forall i: nat | i < |s'.keys| && s'.blockedAt.Some?
      ensures GoneWrong(q, s, s'.keys, i, s'.blockedAt.value) == GoneWrong(p, s, s'.keys, i, s'.blockedAt.value)
    {
    }
  }

  lemma HandledScanned(w0: World, w: World, sid: nat, ph: Phase, start: Time, now: Time, lead: Time)
    requires WorldInv(w0, start) && WorldInv(w, now) && Scanned(w0, w, start, now, lead) && start <= now
    requires Selected(w, sid, ph, now, lead)
    ensures Handled(w, sid, ph, now).Ok?
    ensures Scanned(w0, Handled(w, sid, ph, now).value, start, now, lead)
  {
    hide WorldInv, SlotInv, ScannedSlot, Handled, Handle, Selected, SlotMatches;
    HandledShape(w, sid, ph, now, lead);
    SelectedFacts(w, sid, ph, now, lead);
    ScannedFacts(w0, w, sid, start, now, lead);
    var s0, s := w0.slots[sid], w.slots[sid];
    var p0, p := w0.projects[s0.project], w.projects[s.project];
    ActiveSlotInv(w0, sid, start);
    SlotHandledScanned(p0, p, s0, s, ph, start, now, lead, w.nextId);
    OneMoreScanned(w0, w, Handled(w, sid, ph, now).value, sid, start, now, lead);
  }

  lemma SlotHandledScanned(p0: Project, p: Project, s0: Slot, s: Slot, ph: Phase, start: Time, now: Time, lead: Time, id: nat)
    requires p == p0.(version := p.version) && start <= now
    requires SlotInv(s0, start) && SlotInv(s, now) && ScannedSlot(p0, s0, s, start, now, lead)
    requires SlotMatches(p, s, ph, now, lead) && Handle(s, ph, now, id).Ok?
    ensures ScannedSlot(p0, s0, Handle(s, ph, now, id).value, start, now, lead)
  {
    hide SlotInv, ScannedSlot, SlotMatches, Handle;
    VersionIrrelevant(p0, p, s0, s, start, now, lead);
    HandlerScanned(p, s0, s, ph, start, now, lead, id);
    VersionIrrelevant(p0, p, s0, Handle(s, ph, now, id).value, start, now, lead);
  }

  lemma ScanStep(w0: World, w: World, sid: nat, ph: Phase, start: Time, now: Time, lead: Time)
    requires ScanInv(w0, w, Rank(ph), start, now, lead) && Selected(w, sid, ph, now, lead)
    ensures Handled(w, sid, ph, now).Ok?
    ensures ScanInv(w0, Handled(w, sid, ph, now).value, Rank(ph), start, now, lead)
  {
    HandledInv(w, sid, ph, now, lead);
    HandledInvisible(w, sid, ph, now, lead);
    HandledScanned(w0, w, sid, ph, start, now, lead);
    forall earlier: Phase | Rank(earlier) < Rank(ph) && now == start
      ensures Quiet(Handled(w, sid, ph, now).value, earlier, now, lead)
    {
      StillQuiet(w, sid, ph, earlier, now, lead);
    }
  }

  // Time passes between two transactions of a scan.
  lemma ScanLater(w0: World, w: World, drained: nat, start: Time, now: Time, later: Time, lead: Time)
    requires ScanInv(w0, w, drained, start, now, lead) && now <= later
    ensures ScanInv(w0, w, drained, start, later, lead)
  {
    WorldLater(w, now, later);
    WorldScannedLater(w0, w, start, now, later, lead);
    hide WorldInv, Quiet, Scanned;
  }

  // The sweep that precedes the phases.
  lemma SweepInvisible(w: World, now: Time)
    requires WorldInv(w, now)
    ensures SameAdmissions(w, SweepRevealsIn(w, now), now)
  {
    var w' := SweepRevealsIn(w, now);
    forall sid: nat, row: nat, t: Time | now <= t
      ensures Admits(w', sid, row, t) <==> Admits(w, sid, row, t)
    {
      if sid in w.slots { RevealsHidden(w.slots[sid], PurgeReveals(w.slots[sid], now)); }
    }
  }

  // After a sweep exactly the stored reveals of live, unexpired keys can still be claimed.
  lemma SweptRevealsAreGone(w: World, now: Time, pid: nat, sid: nat, row: nat)
    ensures RevealKeyIn(SweepRevealsIn(w, now), now, pid, sid, row).Ok? <==>
      RevealKeyIn(w, now, pid, sid, row).Ok? && Unexpired(w.slots[sid].keys[row], now)
  {
  }

  // ---------------------------------------------------------------------------
  // The scan itself: every transaction reads the clock anew

  // FOR UPDATE ... LIMIT: distinct matching slots, as many as the limit allows.
  method Fetch(db: Registry, ph: Phase, now: Time, lead: Time, limit: nat) returns (rows: seq<nat>)
    ensures |rows| <= limit
    ensures forall i :: 0 <= i < |rows| ==> Selected(db.State(), rows[i], ph, now, lead)
    ensures forall i, j :: 0 <= i < j < |rows| ==> rows[i] != rows[j]
    ensures |rows| < limit ==> forall sid: nat :: Selected(db.State(), sid, ph, now, lead) ==> sid in rows
  {
    rows := [];
    var todo := db.slots.Keys;
    var w := World(db.projects, db.slots, db.nextId);
    while todo != {} && |rows| < limit
      invariant todo <= db.slots.Keys
      invariant |rows| <= limit
      invariant forall i :: 0 <= i < |rows| ==> rows[i] !in todo && Selected(w, rows[i], ph, now, lead)
      invariant forall i, j :: 0 <= i < j < |rows| ==> rows[i] != rows[j]
      invariant forall sid: nat :: Selected(w, sid, ph, now, lead) ==> sid in todo || sid in rows
    {
      var sid :| sid in todo;
      todo := todo - {sid};
      if Selected(w, sid, ph, now, lead) { rows := rows + [sid]; }
    }
  }

  // One row's handler, as its transaction runs it.
  method Process(db: Registry, sid: nat, ph: Phase, now: Time, lead: Time)
    requires WorldInv(db.State(), now) && Selected(db.State(), sid, ph, now, lead)
    modifies db
    ensures Ok(db.State()) == Handled(old(db.State()), sid, ph, now)
  {
    var pid := db.slots[sid].project;
    var slot := db.slots[sid];
    assert SlotOk(db.projects[pid], slot, now);
    HandledShape(db.State(), sid, ph, now, lead);
    IndexesHold(slot, now);
    match ph
    case ActivateDue =>
      var refused := db.ActivatePendingKey(pid, sid, now);
    case PrepareDue =>
      var active := Find(slot.keys, Active);
      var refused := db.PrepareSlotRotation(pid, sid, now, slot.keys[active.value].expiresAt.value, false, Automatic);
    case _ =>
      db.slots := db.slots[sid := slot.(blockedAt := Some(now))];
  }

  // The same, with what the scan needs from it.
  method ProcessRow(db: Registry, sid: nat, ph: Phase, ghost start: Time, now: Time, lead: Time, ghost w0: World)
    requires ScanInv(w0, db.State(), Rank(ph), start, now, lead) && Selected(db.State(), sid, ph, now, lead)
    modifies db
    ensures ScanInv(w0, db.State(), Rank(ph), start, now, lead)
    ensures forall x: nat :: Selected(db.State(), x, ph, now, lead)
                         <==> x != sid && Selected(old(db.State()), x, ph, now, lead)
  {
    ScanStep(w0, db.State(), sid, ph, start, now, lead);
    QueueShrinks(db.State(), sid, ph, now, lead);
    Process(db, sid, ph, now, lead);
  }

  // The queue of a phase, once the first n fetched rows have been handled.
  ghost predicate QueueAfter(w0: World, w: World, ph: Phase, now: Time, lead: Time, handled: seq<nat>) {
    forall sid: nat :: Selected(w, sid, ph, now, lead) <==> Selected(w0, sid, ph, now, lead) && sid !in handled
  }

  method ProcessBatch(db: Registry, rows: seq<nat>, ph: Phase, ghost start: Time, now: Time, lead: Time, ghost w0: World)
    requires ScanInv(w0, db.State(), Rank(ph), start, now, lead)
    requires forall i :: 0 <= i < |rows| ==> Selected(db.State(), rows[i], ph, now, lead)
    requires forall i, j :: 0 <= i < j < |rows| ==> rows[i] != rows[j]
    modifies db
    ensures ScanInv(w0, db.State(), Rank(ph), start, now, lead)
    ensures QueueAfter(old(db.State()), db.State(), ph, now, lead, rows)
  {
    hide WorldInv, ScanInv, SameAdmissions, Selected;
    ghost var w1 := db.State();
    var i := 0;
    while i < |rows|
      invariant 0 <= i <= |rows|
      invariant ScanInv(w0, db.State(), Rank(ph), start, now, lead)
      invariant QueueAfter(w1, db.State(), ph, now, lead, rows[..i])
    {
      assert Selected(db.State(), rows[i], ph, now, lead);
      ProcessRow(db, rows[i], ph, start, now, lead, w0);
      assert rows[..i + 1] == rows[..i] + [rows[i]];
      i := i + 1;
    }
    assert rows[..i] == rows;
  }

  // Batch after batch, each in a transaction with its own clock reading.
  method DrainPhase(db: Registry, ph: Phase, ghost start: Time, now: Time, lead: Time, remaining: nat, ghost w0: World)
    returns (done: nat, end: Time)
    requires ScanInv(w0, db.State(), Rank(ph), start, now, lead)
    modifies db
    ensures done <= remaining && now <= end
    ensures ScanInv(w0, db.State(), Rank(ph), start, end, lead)
    ensures done < remaining ==> Quiet(db.State(), ph, end, lead)
  {
    done, end := 0, now;
    while done < remaining
      invariant done <= remaining && now <= end
      invariant ScanInv(w0, db.State(), Rank(ph), start, end, lead)
      decreases remaining - done
    {
      var clock: Time := *;
      ghost var before := end;
      end := if clock < end then end else clock;
      ScanLater(w0, db.State(), Rank(ph), start, before, end, lead);
      var limit := if remaining - done < BATCH then remaining - done else BATCH;
      var rows := Fetch(db, ph, end, lead, limit);
      ProcessBatch(db, rows, ph, start, end, lead, w0);
      done := done + |rows|;
      if |rows| < limit { return; }
    }
  }

  // The state of a scan between phases: `drained` phases are done unless it hit its bound.
  ghost predicate Scanning(w0: World, w: World, drained: nat, transitions: nat, start: Time, now: Time, lead: Time) {
    && transitions <= MAX_TRANSITIONS
    && start <= now && WorldInv(w0, start) && WorldInv(w, now) && SameAdmissions(w0, w, now)
    && Scanned(w0, w, start, now, lead)
    && (transitions < MAX_TRANSITIONS ==> ScanInv(w0, w, drained, start, now, lead))
  }

  // One phase, run only while the scan is below its bound.
  method RunPhase(db: Registry, ph: Phase, ghost start: Time, now: Time, lead: Time, before: nat, ghost w0: World)
    returns (transitions: nat, end: Time)
    requires Scanning(w0, db.State(), Rank(ph), before, start, now, lead)
    modifies db
    ensures Scanning(w0, db.State(), Rank(ph) + 1, transitions, start, end, lead)
  {
    transitions, end := before, now;
    var remaining := MAX_TRANSITIONS - transitions;
    if remaining > 0 {
      var done;
      done, end := DrainPhase(db, ph, start, now, lead, remaining, w0);
      transitions := transitions + done;
      forall other: Phase | Rank(other) < Rank(ph) + 1 && done < remaining && end == start
        ensures Quiet(db.State(), other, end, lead)
      {
        if Rank(other) == Rank(ph) { assert other == ph; }
      }
    }
  }

  // A scan makes at most 100 transitions and no handler ever refuses; what clients are
  // admitted with does not change, then or later, however the clock moves meanwhile; and a
  // scan within one instant that stops below the bound leaves no phase anything to do.
  method Scan(db: Registry, now: Time, lead: Time) returns (transitions: nat, end: Time)
    requires WorldInv(db.State(), now)
    modifies db
    ensures transitions <= 100 && now <= end
    ensures WorldInv(db.State(), end)
    ensures SameAdmissions(old(db.State()), db.State(), end)
    ensures Scanned(old(db.State()), db.State(), now, end, lead)
    ensures transitions < 100 && end == now ==>
      Complete(old(db.State()), db.State(), now, lead) && forall ph: Phase :: Quiet(db.State(), ph, now, lead)
  {
    hide WorldInv, ScanInv, SameAdmissions, Complete;
    ghost var w0 := db.State();
    db.SweepExpiredReveals(now);
    ScanBegins(w0, now, lead);
    transitions, end := RunPhase(db, ActivateDue, now, now, lead, 0, w0);
    transitions, end := RunPhase(db, BlockUnconfirmed, now, end, lead, transitions, w0);
    transitions, end := RunPhase(db, BlockExpiredPending, now, end, lead, transitions, w0);
    transitions, end := RunPhase(db, BlockExpiredActive, now, end, lead, transitions, w0);
    transitions, end := RunPhase(db, PrepareDue, now, end, lead, transitions, w0);
    ScanEnds(w0, db.State(), transitions, now, end, lead);
    if transitions < MAX_TRANSITIONS && end == now { QuietIsComplete(w0, db.State(), now, lead); }
  }

  // A slot that no query selects any more has everything done that had to be.
  lemma RipeIsDone(p: Project, s: Slot, s': Slot, i: nat, now: Time, lead: Time)
    requires ScannedSlot(p, s, s', now, now, lead) && GatewayReady(p) && s.enabled && i < |s.keys|
    requires Ripe(s.keys[i], now) && !SlotMatches(p, s', ActivateDue, now, lead)
    ensures s'.keys[i].status.Active? && s'.keys[i].activatedAt == Some(now)
  {
    assert !RowMatches(p, s', i, ActivateDue, now, lead);
  }

  lemma WrongIsBlocked(p: Project, s: Slot, s': Slot, i: nat, now: Time, lead: Time)
    requires SlotInv(s, now) && ScannedSlot(p, s, s', now, now, lead) && GatewayReady(p) && s.enabled && i < |s.keys|
    requires s.blockedAt.None? && GoneWrong(p, s, s.keys, i, now)
    requires forall ph: Phase :: !SlotMatches(p, s', ph, now, lead)
    ensures s'.blockedAt == Some(now)
  {
    hide Chained, LastLink;
    assert !RowMatches(p, s', i, BlockUnconfirmed, now, lead) by { assert !SlotMatches(p, s', BlockUnconfirmed, now, lead); }
    assert !RowMatches(p, s', i, BlockExpiredPending, now, lead) by { assert !SlotMatches(p, s', BlockExpiredPending, now, lead); }
    assert !RowMatches(p, s', i, BlockExpiredActive, now, lead) by { assert !SlotMatches(p, s', BlockExpiredActive, now, lead); }
  }

  lemma LeaderIsReplaced(p: Project, s: Slot, s': Slot, i: nat, now: Time, lead: Time)
    requires SlotInv(s, now) && SlotInv(s', now) && ScannedSlot(p, s, s', now, now, lead)
    requires GatewayReady(p) && s.enabled && i < |s.keys|
    requires s.blockedAt.None? && Rotates(p, s) && ExpiresWithin(s.keys[i], now, lead) && Leads(s, i, now)
    requires forall ph: Phase :: !SlotMatches(p, s', ph, now, lead)
    ensures |s'.keys| == |s.keys| + 1 && s'.keys[|s.keys|].status.Pending? && s'.keys[|s.keys|].trigger.Automatic?
    ensures s'.keys[|s.keys|].activateAt == s.keys[i].expiresAt && s'.keys[|s.keys|].predecessor == Some(s.keys[i].id)
  {
    hide Chained, LastLink;
    assert !RowMatches(p, s', i, ActivateDue, now, lead) by { assert !SlotMatches(p, s', ActivateDue, now, lead); }
    assert !RowMatches(p, s', i, PrepareDue, now, lead) by { assert !SlotMatches(p, s', PrepareDue, now, lead); }
    assert s'.keys[i].status.Active?;
  }

  lemma QuietIsComplete(w0: World, w: World, now: Time, lead: Time)
    requires WorldInv(w0, now) && WorldInv(w, now) && Scanned(w0, w, now, now, lead)
    requires forall ph: Phase :: Quiet(w, ph, now, lead)
    ensures Complete(w0, w, now, lead)
  {
    hide WorldInv, Scanned, CompleteSlot, Quiet;
    forall sid | sid in w0.slots && w0.slots[sid].project in w0.projects
                 && GatewayReady(w0.projects[w0.slots[sid].project]) && w0.slots[sid].enabled
      ensures sid in w.slots && CompleteSlot(w0.projects[w0.slots[sid].project], w0.slots[sid], w.slots[sid], now, lead)
    {
      QuietSlotIsComplete(w0, w, sid, now, lead);
    }
  }

  lemma QuietSlotIsComplete(w0: World, w: World, sid: nat, now: Time, lead: Time)
    requires WorldInv(w0, now) && WorldInv(w, now) && Scanned(w0, w, now, now, lead)
    requires forall ph: Phase :: Quiet(w, ph, now, lead)
    requires sid in w0.slots && w0.slots[sid].project in w0.projects
    requires GatewayReady(w0.projects[w0.slots[sid].project]) && w0.slots[sid].enabled
    ensures sid in w.slots && CompleteSlot(w0.projects[w0.slots[sid].project], w0.slots[sid], w.slots[sid], now, lead)
  {
    hide WorldInv, SlotInv, ScannedSlot, CompleteSlot, SlotMatches, Scanned;
    ScannedFacts(w0, w, sid, now, now, lead);
    ActiveSlotInv(w0, sid, now);
    ActiveSlotInv(w, sid, now);
    var s, s' := w0.slots[sid], w.slots[sid];
    var p, p' := w0.projects[s.project], w.projects[s.project];
    forall ph: Phase
      ensures !SlotMatches(p, s', ph, now, lead)
    {
      assert Quiet(w, ph, now, lead);
      SameButVersion(p, p', s', ph, now, lead);
    }
    SlotIsComplete(p, s, s', now, lead);
  }

  lemma SlotIsComplete(p: Project, s: Slot, s': Slot, now: Time, lead: Time)
    requires SlotInv(s, now) && SlotInv(s', now) && ScannedSlot(p, s, s', now, now, lead) && GatewayReady(p) && s.enabled
    requires forall ph: Phase :: !SlotMatches(p, s', ph, now, lead)
    ensures CompleteSlot(p, s, s', now, lead)
  {
    assert |s.keys| <= |s'.keys|;
    hide SlotInv, ScannedSlot, SlotMatches, Ripe, GoneWrong, Rotates, ExpiresWithin, Leads;
    forall i: nat | i < |s.keys|
      ensures Ripe(s.keys[i], now) ==> s'.keys[i].status.Active? && s'.keys[i].activatedAt == Some(now)
      ensures s.blockedAt.None? && GoneWrong(p, s, s.keys, i, now) ==> s'.blockedAt == Some(now)
    {
      if Ripe(s.keys[i], now) { RipeIsDone(p, s, s', i, now, lead); }
      if s.blockedAt.None? && GoneWrong(p, s, s.keys, i, now) { WrongIsBlocked(p, s, s', i, now, lead); }
    }
    forall i: nat | i < |s.keys| && s.blockedAt.None? && Rotates(p, s) && ExpiresWithin(s.keys[i], now, lead) && Leads(s, i, now)
      ensures |s'.keys| == |s.keys| + 1 && s'.keys[|s.keys|].status.Pending? && s'.keys[|s.keys|].trigger.Automatic?
      ensures s'.keys[|s.keys|].activateAt == s.keys[i].expiresAt && s'.keys[|s.keys|].predecessor == Some(s.keys[i].id)
    {
      LeaderIsReplaced(p, s, s', i, now, lead);
    }
  }

  lemma SweepIsScanned(w: World, now: Time, lead: Time)
    requires WorldInv(w, now)
    ensures Scanned(w, SweepRevealsIn(w, now), now, now, lead)
  {
    forall sid | sid in w.slots
      ensures w.slots[sid].project in w.projects
      ensures ScannedSlot(w.projects[w.slots[sid].project], w.slots[sid], PurgeReveals(w.slots[sid], now), now, now, lead)
    {
      assert Owned(w, sid);
      SweepScanned(w.projects[w.slots[sid].project], w.slots[sid], now, lead);
    }
    hide WorldInv, ScannedSlot;
  }

  lemma ScanBegins(w: World, now: Time, lead: Time)
    requires WorldInv(w, now)
    ensures Scanning(w, SweepRevealsIn(w, now), 0, 0, now, now, lead)
  {
    SweepRevealsStep(w, now);
    SweepInvisible(w, now);
    SweepIsScanned(w, now, lead);
    hide WorldInv, SameAdmissions, Scanned;
  }

  lemma ScanEnds(w0: World, w: World, transitions: nat, start: Time, now: Time, lead: Time)
    requires Scanning(w0, w, 5, transitions, start, now, lead)
    ensures transitions < MAX_TRANSITIONS && now == start ==> forall ph: Phase :: Quiet(w, ph, now, lead)
  {
    forall ph: Phase | transitions < MAX_TRANSITIONS && now == start
      ensures Quiet(w, ph, now, lead)
    {
      assert Rank(ph) < 5;
    }
  }
}
