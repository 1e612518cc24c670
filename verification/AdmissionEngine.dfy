// The admission engine as a process runs it: its remembered epoch, the counters and the
// tickets in the traffic store, and the database row that names the store's epoch.
module AdmissionEngine {
  import opened Prelude
  import opened TokenBucket
  import opened Admission

  // The access-rate epoch row: whether its traffic store has been set up.
  datatype Epoch = Epoch(id: string, initialized: bool)

  datatype StartRefusal = MissingEpoch | StoreNotEmpty | ForeignEpoch | CountersLost

  // What start-up leaves in the store and in the database.
  function Start(row: Epoch, t: Traffic): Result<(Epoch, Traffic), StartRefusal> {
    if row.initialized then
      if t.epoch == Some(row.id) then Ok((row, t)) else Err(CountersLost)
    else if t.epoch.None? && (t.buckets != map[] || t.tickets != map[]) then Err(StoreNotEmpty)
    else if t.epoch.Some? && t.epoch != Some(row.id) then Err(ForeignEpoch)
    else Ok((row.(initialized := true), t.(epoch := Some(row.id))))
  }

  // Start-up succeeds exactly on this row's own store, or on an empty one before the first
  // set-up, and never touches a counter or a ticket.
  lemma StartsOnlyOnItsStore(row: Epoch, t: Traffic)
    ensures Start(row, t).Ok? <==>
      t.epoch == Some(row.id) || (!row.initialized && t == Traffic(None, map[], map[]))
    ensures Start(row, t).Ok? ==>
      Start(row, t).value.0 == Epoch(row.id, true) && Start(row, t).value.1 == t.(epoch := Some(row.id))
  {
  }

  // A set-up whose database half was rolled back is completed by the next start.
  lemma HalfStartCompletes(row: Epoch, t: Traffic)
    requires Start(row, t).Ok?
    ensures Start(row, Start(row, t).value.1) == Start(row, t)
  {
  }

  // A store that lost its counters admits nobody and redeems nothing until maintenance:
  // no request passes, nothing is written, and no restart brings it back.
  lemma LostCountersFailClosed(row: Epoch, t: Traffic, a: Ask, storedAt: real, p: Presentation)
    requires row.initialized && t.epoch != Some(row.id)
    ensures Start(row, t) == Err(CountersLost)
    ensures Issue(row.id, t, a, storedAt).0 != Ok(Some(a.name)) && Issue(row.id, t, a, storedAt).1 == t
    ensures Redeem(row.id, t, p).0.Err? && Redeem(row.id, t, p).1 == t
  {
  }

  class TicketStore {
    var held: map<string, Held>

    constructor ()
      ensures held == map[]
    {
      held := map[];
    }

    // SET key value EX 10 NX
    method Put(name: string, value: Ticket, now: real) returns (stored: bool)
      modifies this
      ensures stored <==> !Live(old(held), name, now)
      ensures held == if stored then old(held)[name := Held(value, now + 10.0)] else old(held)
    {
      stored := !(name in held && now <= held[name].deadline);
      if stored { held := held[name := Held(value, now + 10.0)]; }
    }

    // GETDEL key
    method Take(name: string, now: real) returns (value: Option<Ticket>)
      modifies this
      ensures value.Some? <==> Live(old(held), name, now)
      ensures value.Some? ==> value.value == old(held)[name].ticket && held == old(held) - {name}
      ensures value.None? ==> held == old(held)
    {
      if name !in held || now > held[name].deadline { return None; }
      value := Some(held[name].ticket);
      held := held - {name};
    }
  }

  class Engine {
    var epoch: string
    const counters: TrafficStore
    const tickets: TicketStore

    ghost function State(): Traffic
      reads counters, tickets
    {
      Traffic(counters.epoch, counters.buckets, tickets.held)
    }

    constructor (counters: TrafficStore, tickets: TicketStore)
      ensures this.counters == counters && this.tickets == tickets
    {
      this.counters, this.tickets, epoch := counters, tickets, "";
    }

    // The row is read first; a database without one refuses.
    method Startup(row: Option<Epoch>) returns (row': Option<Epoch>, refusal: Option<StartRefusal>)
      modifies this`epoch, counters`epoch
      ensures row.None? ==> refusal == Some(MissingEpoch) && row' == row && epoch == old(epoch) && State() == old(State())
      ensures row.Some? ==> epoch == row.value.id
      ensures row.Some? ==>
        match Start(row.value, old(State()))
        case Ok((r, t)) => refusal.None? && row' == Some(r) && State() == t
        case Err(e) => refusal == Some(e) && row' == row && State() == old(State())
    {
      row', refusal := row, None;
      if row.None? { return row, Some(MissingEpoch); }
      epoch := row.value.id;
      var stored := counters.epoch;
      if !row.value.initialized {
        if stored.None? && (counters.buckets != map[] || tickets.held != map[]) { return row, Some(StoreNotEmpty); }
        if stored.Some? && stored != Some(epoch) { return row, Some(ForeignEpoch); }
        if counters.epoch.None? { counters.epoch := Some(epoch); }
        row' := Some(row.value.(initialized := true));
      } else if stored != Some(epoch) {
        return row, Some(CountersLost);
      }
    }

    // Charges every scope that has a limit, or none of them.
    method Rate(scopes: seq<string>, rates: seq<Option<Rate>>, now: real) returns (refusal: Option<Refusal>)
      requires |scopes| == |rates| && Sane(Limits(scopes, rates)) && DistinctScopes(Limits(scopes, rates))
      modifies counters`buckets
      ensures refusal.Some? ==> counters.buckets == old(counters.buckets)
      ensures counters.epoch != Some(epoch) ==> refusal == Some(Refused(503))
      ensures counters.epoch == Some(epoch) ==>
        var (v, buckets) := Script(old(counters.buckets), Limits(scopes, rates), now);
        && refusal == (if v.Denied? then Some(RetryAfter(v.wait)) else None)
        && counters.buckets == buckets
    {
      var limits := [];
      var i := 0;
      while i < |scopes|
        invariant 0 <= i <= |scopes| && limits == Limits(scopes[..i], rates[..i])
      {
        assert scopes[..i + 1][..i] == scopes[..i] && rates[..i + 1][..i] == rates[..i];
        if rates[i].Some? {
          var lifetime := 1000001;
          if StartsWith(scopes[i], "discovery:") || EndsWith(scopes[i], ":admin") { lifetime := 5; }
          limits := limits + [Limit(scopes[i], rates[i].value.perSecond, rates[i].value.burst, lifetime)];
        }
        i := i + 1;
      }
      assert scopes[..i] == scopes && rates[..i] == rates;
      var v := counters.Evaluate(epoch, limits, now);
      match v
      case NoEpoch => refusal := Some(Refused(503));
      case Denied(wait) => refusal := Some(RetryAfter(wait));
      case Admitted => refusal := None;
    }

    method IssueTicket(a: Ask, storedAt: real) returns (result: Result<Option<string>, Refusal>)
      modifies counters`buckets, tickets
      ensures (result, State()) == Issue(epoch, old(State()), a, storedAt)
    {
      hide Script, Limits, Sane, DistinctScopes, Live, Lookup, TicketOf;
      var found := Lookup(a.db, a.project, SlotId(a.identity));
      if found.Err? { return Err(found.error); }
      var rates := found.value.0;
      LookupShape(a.db, a.project, SlotId(a.identity));
      if Administrative(a.identity) {
        if !a.adminOrigin { return Err(Refused(403)); }
        rates := [Some(ADMINISTRATIVE)];
      } else {
        if a.geography.Some? { return Err(a.geography.value); }
        if a.service == "discovery" { rates := [Some(DISCOVERY)]; }
      }
      if a.body.verb == "OPTIONS" { return Ok(None); }
      LimitsAreSound(a);
      var refusal := Rate(ScopesAsked(a), rates, a.at);
      if refusal.Some? { return Err(refusal.value); }
      if a.service != "discovery" && a.quota > 0 { return Err(RetryAfter(a.quota)); }
      var stored := tickets.Put(a.name, TicketOf(epoch, a, found.value.1), storedAt);
      result := if stored then Ok(Some(a.name)) else Err(Refused(503));
    }

    method RedeemTicket(p: Presentation) returns (result: Result<(), Refusal>)
      modifies tickets
      ensures (result, State()) == Redeem(epoch, old(State()), p)
    {
      if !WellFormed(p.ticket) { return Err(Refused(403)); }
      if counters.epoch != Some(epoch) { return Err(Refused(503)); }
      var value := tickets.Take(p.ticket, p.at);
      if value.None? { return Err(Refused(403)); }
      if value.value.binding != BindingOf(p.body, p.project, KeyId(p.identity)) || value.value.epoch != epoch {
        return Err(Refused(403));
      }
      var current := Lookup(p.db, p.project, SlotId(p.identity));
      if current.Err? { return Err(current.error); }
      if value.value.revisions != current.value.1 { return Err(Refused(403)); }
      result := Ok(());
    }
  }
}
