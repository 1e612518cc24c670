// Runs of admissions and redemptions against one traffic store, by any number of
// authorizer processes of the same epoch.
module AdmissionRuns {
  import opened Prelude
  import opened TokenBucket
  import opened Admission

  // A request that was charged and has yet to store its ticket.
  datatype Paid = Paid(ask: Ask, ticket: Ticket)

  datatype World = World(store: Traffic, waiting: map<nat, Paid>)

  // A request charges its scopes, and later stores its ticket, if it ever gets there; `id` is
  // the request.
  datatype Event = Charged(id: nat, ask: Ask) | Stored(id: nat, at: real) | Presented(shown: Presentation)

  function At(e: Event): real {
    match e
    case Charged(_, a) => a.at
    case Stored(_, at) => at
    case Presented(p) => p.at
  }

  function Step(epoch: string, w: World, e: Event): World {
    match e
    case Charged(id, a) => if id in w.waiting then w else ChargeStep(epoch, w, id, a)
    case Stored(id, at) => if id in w.waiting then StoreStep(w, id, at) else w
    case Presented(p) => w.(store := Redeem(epoch, w.store, p).1)
  }

  function ChargeStep(epoch: string, w: World, id: nat, a: Ask): World {
    var (earned, t) := Earn(epoch, w.store, a);
    World(t, if earned.Ok? && earned.value.Some? then w.waiting[id := Paid(a, earned.value.value)] else w.waiting)
  }

  function StoreStep(w: World, id: nat, at: real): World
    requires id in w.waiting
  {
    World(Put(w.store, w.waiting[id].ask.name, w.waiting[id].ticket, at).1, w.waiting - {id})
  }

  function StateAt(epoch: string, start: World, events: seq<Event>, k: nat): World
    requires k <= |events|
  {
    if k == 0 then start else Step(epoch, StateAt(epoch, start, events, k - 1), events[k - 1])
  }

  // Event k charges request `id`, which has earned a ticket.
  predicate Pays(epoch: string, start: World, events: seq<Event>, k: nat, id: nat)
    requires k < |events|
  {
    var w := StateAt(epoch, start, events, k);
    events[k].Charged? && events[k].id == id && id !in w.waiting &&
    var earned := Earn(epoch, w.store, events[k].ask).0;
    earned.Ok? && earned.value.Some?
  }

  // Event k stores the ticket called `name`.
  predicate Obtains(epoch: string, start: World, events: seq<Event>, k: nat, name: string)
    requires k < |events|
  {
    var w := StateAt(epoch, start, events, k);
    events[k].Stored? && events[k].id in w.waiting && w.waiting[events[k].id].ask.name == name &&
    !Live(w.store.tickets, name, events[k].at)
  }

  predicate Redeems(epoch: string, start: World, events: seq<Event>, k: nat)
    requires k < |events|
  {
    events[k].Presented? && Redeem(epoch, StateAt(epoch, start, events, k).store, events[k].shown).0.Ok?
  }

  ghost predicate Ordered(events: seq<Event>) {
    forall i, j :: 0 <= i < j < |events| ==> At(events[i]) <= At(events[j])
  }

  // Nobody has a ticket yet, or is owed one.
  predicate NoTickets(w: World) { w.store.tickets == map[] && w.waiting == map[] }

  // A ticket is stored at most `delay` seconds after its request was charged.
  predicate InTime(w: World, e: Event, delay: real) {
    e.Stored? && e.id in w.waiting ==> e.at <= w.waiting[e.id].ask.at + delay
  }

  // ---------------------------------------------------------------------------
  // Where a redeemed ticket comes from

  // The same request: project, key, credential, method and uri.
  ghost predicate SameRequest(a: Ask, p: Presentation) {
    && a.project == p.project
    && (a.identity.Some? <==> p.identity.Some?)
    && (a.identity.Some? ==> a.identity.value.id == p.identity.value.id)
    && a.body.apiKey == p.body.apiKey && a.body.verb == p.body.verb && a.body.uri == p.body.uri
  }

  // Asked for by this very request, under the policies that still hold.
  ghost predicate Answers(a: Ask, p: Presentation) {
    && SameRequest(a, p)
    && exists revisions: seq<int> ::
         RevisionsAre(a.db, a.project, a.identity, revisions) && RevisionsAre(p.db, p.project, p.identity, revisions)
  }

  // The stored ticket is the one this request is owed.
  lemma AnswersIff(epoch: string, paid: Paid, p: Presentation)
    requires Earned(epoch, paid)
    ensures Answers(paid.ask, p) <==>
      && paid.ticket.binding == BindingOf(p.body, p.project, KeyId(p.identity))
      && Lookup(p.db, p.project, SlotId(p.identity)).Ok?
      && Lookup(p.db, p.project, SlotId(p.identity)).value.1 == paid.ticket.revisions
  {
    var a := paid.ask;
    LookupIff(a.db, a.project, a.identity, paid.ticket.revisions);
    LookupIff(p.db, p.project, p.identity, paid.ticket.revisions);
    hide Lookup;
  }

  predicate Earned(epoch: string, paid: Paid) {
    && Lookup(paid.ask.db, paid.ask.project, SlotId(paid.ask.identity)).Ok?
    && paid.ticket == TicketOf(epoch, paid.ask, Lookup(paid.ask.db, paid.ask.project, SlotId(paid.ask.identity)).value.1)
  }

  // The charge behind a waiting request, used for no ticket so far.
  lemma {:induction false} ChargeOf(epoch: string, start: World, events: seq<Event>, k: nat, id: nat) returns (h: nat)
    requires k <= |events| && NoTickets(start) && id in StateAt(epoch, start, events, k).waiting
    ensures h < k && Pays(epoch, start, events, h, id)
    ensures var paid := StateAt(epoch, start, events, k).waiting[id]; paid.ask == events[h].ask && Earned(epoch, paid)
    ensures forall j :: h < j < k && events[j].Stored? ==> events[j].id != id
  {
    hide Script, LimitsAsked, Lookup, Redeem, Put;
    var before := StateAt(epoch, start, events, k - 1);
    if id in before.waiting {
      h := ChargeOf(epoch, start, events, k - 1, id);
    } else {
      h := k - 1;
    }
  }

  // A step leaves a held ticket in the store only if it stored it, or found it there and did
  // not redeem it.
  lemma HeldAfter(epoch: string, w: World, e: Event, name: string)
    requires name in Step(epoch, w, e).store.tickets
    ensures
      if e.Stored? && e.id in w.waiting && w.waiting[e.id].ask.name == name && !Live(w.store.tickets, name, e.at) then
        Step(epoch, w, e).store.tickets[name] == Held(w.waiting[e.id].ticket, e.at + 10.0)
      else
        && name in w.store.tickets && w.store.tickets[name] == Step(epoch, w, e).store.tickets[name]
        && (e.Presented? && Redeem(epoch, w.store, e.shown).0.Ok? ==> e.shown.ticket != name)
  {
    hide Script, LimitsAsked, Lookup, WellFormed, Gate, TicketOf, Live;
  }

  ghost predicate HeldSince(epoch: string, start: World, events: seq<Event>, i: nat, k: nat, name: string)
    requires k <= |events|
  {
    && name in StateAt(epoch, start, events, k).store.tickets
    && forall j :: i < j <= k ==>
         name in StateAt(epoch, start, events, j).store.tickets
         && StateAt(epoch, start, events, j).store.tickets[name] == StateAt(epoch, start, events, k).store.tickets[name]
  }

  // The event that put a held ticket in the store, still unspent.
  lemma {:induction false} Origin(epoch: string, start: World, events: seq<Event>, k: nat, name: string) returns (i: nat)
    requires k <= |events| && NoTickets(start)
    requires name in StateAt(epoch, start, events, k).store.tickets
    ensures i < k && Obtains(epoch, start, events, i, name)
    ensures StateAt(epoch, start, events, k).store.tickets[name]
      == Held(StateAt(epoch, start, events, i).waiting[events[i].id].ticket, events[i].at + 10.0)
    ensures forall j :: i < j < k && Redeems(epoch, start, events, j) ==> events[j].shown.ticket != name
    ensures HeldSince(epoch, start, events, i, k, name)
  {
    hide Step, Redeem, Live;
    HeldAfter(epoch, StateAt(epoch, start, events, k - 1), events[k - 1], name);
    if Obtains(epoch, start, events, k - 1, name) {
      i := k - 1;
    } else {
      i := Origin(epoch, start, events, k - 1, name);
    }
  }

  // A redemption answers a request that was charged, whose ticket was stored at most ten
  // seconds before under the same binding and policies; the charge stored no other ticket and
  // nobody redeemed this one in between.
  lemma Provenance(epoch: string, start: World, events: seq<Event>, k: nat) returns (h: nat, i: nat)
    requires k < |events| && NoTickets(start) && Redeems(epoch, start, events, k)
    ensures h < i < k && Obtains(epoch, start, events, i, events[k].shown.ticket) && Pays(epoch, start, events, h, events[i].id)
    ensures Answers(events[h].ask, events[k].shown) && At(events[k]) <= At(events[i]) + 10.0
    ensures forall j :: h < j < i && events[j].Stored? ==> events[j].id != events[i].id
    ensures forall j :: i < j < k && Redeems(epoch, start, events, j) ==> events[j].shown.ticket != events[k].shown.ticket
    ensures HeldSince(epoch, start, events, i, k, events[k].shown.ticket)
  {
    i := Origin(epoch, start, events, k, events[k].shown.ticket);
    h := ChargeOf(epoch, start, events, i, events[i].id);
    AnswersIff(epoch, StateAt(epoch, start, events, i).waiting[events[i].id], events[k].shown);
    hide Answers, Earned, BindingOf;
    hide StateAt, Step, Script, LimitsAsked, Lookup, WellFormed, Earn, Put, Gate, NoTickets;
  }

  // Event k presents the ticket that event i stored for the request charged at h, in time and
  // for the first time.
  ghost predicate Entitled(epoch: string, start: World, events: seq<Event>, h: nat, i: nat, k: nat)
    requires k < |events|
  {
    && h < i < k && events[k].Presented?
    && Obtains(epoch, start, events, i, events[k].shown.ticket) && Pays(epoch, start, events, h, events[i].id)
    && (forall j :: h < j < i && events[j].Stored? ==> events[j].id != events[i].id)
    && Answers(events[h].ask, events[k].shown) && At(events[k]) <= At(events[i]) + 10.0
    && (forall j :: i < j < k && events[j].Presented? ==> events[j].shown.ticket != events[k].shown.ticket)
  }

  lemma {:induction false} EpochStays(epoch: string, start: World, events: seq<Event>, k: nat)
    requires k <= |events|
    ensures StateAt(epoch, start, events, k).store.epoch == start.store.epoch
    decreases k
  {
    hide Script, LimitsAsked, Lookup, WellFormed, Gate, TicketOf;
    if k > 0 { EpochStays(epoch, start, events, k - 1); }
  }

  // What a charged request has earned waits until it stores it.
  lemma {:induction false} PaidWaits(epoch: string, start: World, events: seq<Event>, h: nat, k: nat, id: nat)
    requires h < k <= |events| && Pays(epoch, start, events, h, id)
    requires forall j :: h < j < k && events[j].Stored? ==> events[j].id != id
    ensures var w := StateAt(epoch, start, events, k);
      id in w.waiting && w.waiting[id].ask == events[h].ask && Earned(epoch, w.waiting[id])
    decreases k
  {
    hide Script, LimitsAsked, Lookup, WellFormed, Gate, TicketOf, Put, Redeem;
    if h < k - 1 {
      hide Earn;
      PaidWaits(epoch, start, events, h, k - 1, id);
    } else {
      EarnedTicket(epoch, StateAt(epoch, start, events, h).store, events[h].ask);
    }
  }

  lemma EarnedTicket(epoch: string, t: Traffic, a: Ask)
    requires Earn(epoch, t, a).0.Ok? && Earn(epoch, t, a).0.value.Some?
    ensures Earned(epoch, Paid(a, Earn(epoch, t, a).0.value.value))
  {
    hide Script, LimitsAsked;
  }

  // A stored ticket stays until it is presented, as long as it lives.
  lemma {:induction false} StaysHeld(epoch: string, start: World, events: seq<Event>, i: nat, k: nat, name: string)
    requires i < k <= |events| && Ordered(events) && Obtains(epoch, start, events, i, name)
    requires forall j :: i < j < k && events[j].Presented? ==> events[j].shown.ticket != name
    requires forall j :: i < j < k ==> At(events[j]) <= At(events[i]) + 10.0
    ensures var t := StateAt(epoch, start, events, k).store.tickets;
      name in t && t[name] == Held(StateAt(epoch, start, events, i).waiting[events[i].id].ticket, events[i].at + 10.0)
    decreases k
  {
    hide Script, LimitsAsked, Lookup, WellFormed, Gate, TicketOf, BindingOf;
    if i < k - 1 {
      StaysHeld(epoch, start, events, i, k - 1, name);
    }
  }

  // Any earlier presentation would have removed the ticket.
  lemma FirstPresented(epoch: string, start: World, events: seq<Event>, i: nat, k: nat)
    requires i < k < |events| && Ordered(events) && start.store.epoch == Some(epoch) && Redeems(epoch, start, events, k)
    requires HeldSince(epoch, start, events, i, k, events[k].shown.ticket)
    ensures forall j :: i < j < k && events[j].Presented? ==> events[j].shown.ticket != events[k].shown.ticket
  {
    var name := events[k].shown.ticket;
    forall j | i < j < k && events[j].Presented?
      ensures events[j].shown.ticket != name
    {
      if events[j].shown.ticket == name {
        EpochStays(epoch, start, events, j);
        assert At(events[j]) <= At(events[k]);
        hide Script, LimitsAsked, Lookup, BindingOf, WellFormed;
        var after := StateAt(epoch, start, events, j + 1);
      }
    }
  }

  lemma EntitledIsRedeemed(epoch: string, start: World, events: seq<Event>, h: nat, i: nat, k: nat)
    requires k < |events| && Ordered(events) && start.store.epoch == Some(epoch)
    requires Entitled(epoch, start, events, h, i, k) && WellFormed(events[k].shown.ticket)
    ensures Redeems(epoch, start, events, k)
  {
    var p := events[k].shown;
    PaidWaits(epoch, start, events, h, i, events[i].id);
    AnswersIff(epoch, StateAt(epoch, start, events, i).waiting[events[i].id], p);
    StaysHeld(epoch, start, events, i, k, p.ticket);
    EpochStays(epoch, start, events, k);
    hide StateAt, Step, Script, LimitsAsked, Lookup, WellFormed, Earn, Put, Gate, BindingOf, Answers, Pays, Obtains;
  }

  // A presentation succeeds exactly when its ticket was stored at most ten seconds before for
  // this very request, charged and under the policies that still hold, and nobody, successful
  // or not, has presented it since.
  lemma RedeemedIff(epoch: string, start: World, events: seq<Event>, k: nat)
    requires k < |events| && Ordered(events) && NoTickets(start) && start.store.epoch == Some(epoch)
    ensures Redeems(epoch, start, events, k) <==>
      events[k].Presented? && WellFormed(events[k].shown.ticket)
      && exists h: nat, i: nat :: Entitled(epoch, start, events, h, i, k)
  {
    if Redeems(epoch, start, events, k) {
      var h, i := Provenance(epoch, start, events, k);
      FirstPresented(epoch, start, events, i, k);
      assert Entitled(epoch, start, events, h, i, k);
    }
    hide Redeems, Entitled, WellFormed;
    if events[k].Presented? && WellFormed(events[k].shown.ticket) && exists h: nat, i: nat :: Entitled(epoch, start, events, h, i, k) {
      var h: nat, i: nat :| Entitled(epoch, start, events, h, i, k);
      EntitledIsRedeemed(epoch, start, events, h, i, k);
    }
  }

  // A ticket redeemed twice was stored twice.
  lemma SingleUse(epoch: string, start: World, events: seq<Event>, j: nat, k: nat) returns (i: nat)
    requires j < k < |events| && NoTickets(start)
    requires Redeems(epoch, start, events, j) && Redeems(epoch, start, events, k)
    requires events[j].shown.ticket == events[k].shown.ticket
    ensures j < i < k && Obtains(epoch, start, events, i, events[k].shown.ticket)
  {
    hide Redeem, StateAt, NoTickets, Earn, Pays, Answers;
    var _, stored := Provenance(epoch, start, events, k);
    i := stored;
  }

  // Every redemption has a charge of its own.
  lemma OneChargeEach(epoch: string, start: World, events: seq<Event>, j: nat, k: nat) returns (h: nat, h': nat)
    requires j < k < |events| && NoTickets(start)
    requires Redeems(epoch, start, events, j) && Redeems(epoch, start, events, k)
    ensures h < j && h' < k && h != h'
    ensures events[h].Charged? && events[h'].Charged?
    ensures Answers(events[h].ask, events[j].shown) && Answers(events[h'].ask, events[k].shown)
  {
    hide Redeem, StateAt, NoTickets, Earn, Answers, Live;
    var i, i' := 0, 0;
    h, i := Provenance(epoch, start, events, j);
    h', i' := Provenance(epoch, start, events, k);
  }

  // A request with nothing between its halves is a charge followed by its ticket.
  lemma IssueIsARun(epoch: string, t: Traffic, a: Ask, storedAt: real)
    ensures var (result, after) := Issue(epoch, t, a, storedAt);
      var events := [Charged(0, a), Stored(0, storedAt)];
      && StateAt(epoch, World(t, map[]), events, 2) == World(after, map[])
      && (result == Ok(Some(a.name)) <==> Obtains(epoch, World(t, map[]), events, 1, a.name))
  {
    hide Script, LimitsAsked, Lookup, TicketOf, Live;
    var start, events := World(t, map[]), [Charged(0, a), Stored(0, storedAt)];
    assert StateAt(epoch, start, events, 0) == start;
    assert StateAt(epoch, start, events, 1) == ChargeStep(epoch, start, 0, a);
  }

  // ---------------------------------------------------------------------------
  // How many redemptions a scope can see

  // Tickets that paid the scope and can still be redeemed at `since` or later.
  function Outstanding(tickets: map<string, Held>, scope: string, since: real): set<string> {
    set n | n in tickets && tickets[n].deadline >= since && scope in ScopesPaid(tickets[n].ticket)
  }

  // Requests that paid the scope at `from` or later and have not stored their ticket.
  function Owed(waiting: map<nat, Paid>, scope: string, from: real): set<nat> {
    set id | id in waiting && waiting[id].ask.at >= from && scope in ScopesPaid(waiting[id].ticket)
  }

  // An admitted request: a redemption at `since` or later of a ticket that paid the scope.
  predicate Counts(epoch: string, t: Traffic, e: Event, scope: string, since: real) {
    && e.Presented? && Redeem(epoch, t, e.shown).0.Ok?
    && At(e) >= since && scope in ScopesPaid(t.tickets[e.shown.ticket].ticket)
  }

  // Admitted requests among events i .. k-1.
  function Redemptions(epoch: string, start: World, events: seq<Event>, i: nat, k: nat, scope: string, since: real): nat
    requires i <= k <= |events|
  {
    if i == k then 0
    else
      Redemptions(epoch, start, events, i, k - 1, scope, since)
      + (if Counts(epoch, StateAt(epoch, start, events, k - 1).store, events[k - 1], scope, since) then 1 else 0)
  }

  // The scope's policy is unchanged: whoever is charged on it is charged with this limit.
  predicate UnderLimit(e: Event, l: Limit) {
    (e.Charged? && Lookup(e.ask.db, e.ask.project, SlotId(e.ask.identity)).Ok? && l.scope in ScopesAsked(e.ask))
    ==> l in LimitsAsked(e.ask)
  }

  lemma AskedOnScope(t: Traffic, id: nat, a: Ask, l: Limit)
    requires Covered(l) && Settled(t.buckets, l, a.at)
    requires Lookup(a.db, a.project, SlotId(a.identity)).Ok? && UnderLimit(Charged(id, a), l)
    ensures Sane(LimitsAsked(a))
    ensures var (v, buckets) := Script(t.buckets, LimitsAsked(a), a.at);
      && Settled(buckets, l, a.at)
      && Level(buckets, l, a.at)
           == Level(t.buckets, l, a.at) - (if v.Admitted? && l.scope in ScopesAsked(a) then 1.0 else 0.0)
  {
    LimitsAreSound(a);
    assert l.scope in ScopesAsked(a) ==> l.scope in ScopesOf(LimitsAsked(a));
    ScriptOnScope(t.buckets, Call(a.at, LimitsAsked(a)), l);
  }

  // What the scope owes to clients: tickets in the store, and tickets still to be stored.
  function Debt(w: World, scope: string, from: real, since: real): nat {
    |Outstanding(w.store.tickets, scope, since)| + |Owed(w.waiting, scope, from)|
  }

  // A token spent by the scope is a ticket owed.
  lemma ChargeBooks(epoch: string, w: World, id: nat, a: Ask, l: Limit, from: real, since: real)
    requires Covered(l) && Settled(w.store.buckets, l, a.at) && UnderLimit(Charged(id, a), l) && id !in w.waiting
    ensures var w' := ChargeStep(epoch, w, id, a);
      && Settled(w'.store.buckets, l, a.at)
      && Debt(w', l.scope, from, since) as real + Level(w'.store.buckets, l, a.at)
         <= Debt(w, l.scope, from, since) as real + Level(w.store.buckets, l, a.at)
  {
    if Lookup(a.db, a.project, SlotId(a.identity)).Ok? {
      AskedOnScope(w.store, id, a, l);
      hide Script, LimitsAsked, Lookup, Settled, Level, Scopes, Outstanding, Owed, Gate, TicketOf, Covered, UnderLimit;
      if ChargeStep(epoch, w, id, a).waiting != w.waiting { OneMoreOwed(epoch, w, id, a, l.scope, from); }
    }
  }

  lemma OneMoreOwed(epoch: string, w: World, id: nat, a: Ask, scope: string, from: real)
    requires id !in w.waiting && ChargeStep(epoch, w, id, a).waiting != w.waiting
    ensures |Owed(ChargeStep(epoch, w, id, a).waiting, scope, from)|
         <= |Owed(w.waiting, scope, from)| + (if scope in ScopesAsked(a) then 1 else 0)
  {
    hide Script, LimitsAsked, Lookup, Scopes;
    var o, o' := Owed(w.waiting, scope, from), Owed(ChargeStep(epoch, w, id, a).waiting, scope, from);
    if scope in ScopesAsked(a) {
      assert o' <= o + {id};
      SmallerSet(o', o + {id});
    } else {
      assert o' <= o;
      SmallerSet(o', o);
    }
  }

  lemma {:induction false} SmallerSet<T>(a: set<T>, b: set<T>)
    requires a <= b
    ensures |a| <= |b|
  {
    assert b == a + (b - a);
  }

  // A ticket stored is no longer owed; one paid for before `from` expires before `since`.
  lemma StoreBooks(w: World, id: nat, at: real, scope: string, from: real, delay: real, since: real)
    requires id in w.waiting && InTime(w, Stored(id, at), delay) && from + delay + 10.0 <= since
    ensures Debt(StoreStep(w, id, at), scope, from, since) <= Debt(w, scope, from, since)
  {
    hide Scopes;
    var w', name := StoreStep(w, id, at), w.waiting[id].ask.name;
    var o, o' := Outstanding(w.store.tickets, scope, since), Outstanding(w'.store.tickets, scope, since);
    var d, d' := Owed(w.waiting, scope, from), Owed(w'.waiting, scope, from);
    if id in d {
      assert d' <= d - {id};
      SmallerSet(d', d - {id});
      assert o' <= o + {name};
      SmallerSet(o', o + {name});
    } else {
      assert d' <= d;
      SmallerSet(d', d);
      assert o' <= o;
      SmallerSet(o', o);
    }
  }

  // A redemption is one ticket fewer.
  lemma ShownBooks(epoch: string, t: Traffic, p: Presentation, l: Limit, since: real)
    ensures var t' := Redeem(epoch, t, p).1;
      && t'.buckets == t.buckets
      && (if Counts(epoch, t, Presented(p), l.scope, since) then 1 else 0) + |Outstanding(t'.tickets, l.scope, since)|
         <= |Outstanding(t.tickets, l.scope, since)|
  {
    hide Scopes, Lookup, WellFormed;
    var o, o' := Outstanding(t.tickets, l.scope, since), Outstanding(Redeem(epoch, t, p).1.tickets, l.scope, since);
    if Counts(epoch, t, Presented(p), l.scope, since) {
      assert p.ticket in o && o' <= o - {p.ticket};
      SmallerSet(o', o - {p.ticket});
    } else {
      assert o' <= o;
      SmallerSet(o', o);
    }
  }

  // Tickets live ten seconds, and nobody waits from the future.
  ghost predicate ShortLived(w: World, now: real) {
    && (forall n :: n in w.store.tickets ==> w.store.tickets[n].deadline <= now + 10.0)
    && (forall id :: id in w.waiting ==> w.waiting[id].ask.at <= now)
  }

  lemma StepShortLived(epoch: string, w: World, e: Event, before: real)
    requires ShortLived(w, before) && before <= At(e)
    ensures ShortLived(Step(epoch, w, e), At(e))
  {
    hide Script, LimitsAsked, Lookup, WellFormed, Gate, TicketOf;
  }

  lemma StepBooks(epoch: string, w: World, e: Event, l: Limit, from: real, delay: real, since: real)
    requires Covered(l) && Settled(w.store.buckets, l, At(e)) && UnderLimit(e, l)
    requires InTime(w, e, delay) && from + delay + 10.0 <= since
    ensures var w' := Step(epoch, w, e);
      && Settled(w'.store.buckets, l, At(e))
      && (if Counts(epoch, w.store, e, l.scope, since) then 1.0 else 0.0)
           + Debt(w', l.scope, from, since) as real + Level(w'.store.buckets, l, At(e))
         <= Debt(w, l.scope, from, since) as real + Level(w.store.buckets, l, At(e))
  {
    hide Settled, Level, UnderLimit, Covered, ChargeStep, Redeem, Outstanding, Owed, Live;
    match e
    case Charged(id, a) =>
      if id !in w.waiting { ChargeBooks(epoch, w, id, a, l, from, since); }
    case Stored(id, at) =>
      if id in w.waiting { StoreBooks(w, id, at, l.scope, from, delay, since); }
    case Presented(p) => ShownBooks(epoch, w.store, p, l, since);
  }

  // The clock once events i .. k-1 are done.
  function Clock(events: seq<Event>, i: nat, k: nat, from: real): real
    requires i <= k <= |events|
  {
    if i == k then from else At(events[k - 1])
  }

  ghost predicate Timely(epoch: string, start: World, events: seq<Event>, delay: real) {
    Ordered(events) && delay >= 0.0 &&
    forall j :: 0 <= j < |events| ==> InTime(StateAt(epoch, start, events, j), events[j], delay)
  }

  // Redemptions, tickets owed and tokens left never exceed what the window began with plus
  // what it accrued.
  lemma {:induction false} Books(epoch: string, start: World, events: seq<Event>, i: nat, k: nat, l: Limit, from: real, delay: real, since: real)
    requires i <= k <= |events| && Covered(l) && Settled(StateAt(epoch, start, events, i).store.buckets, l, from)
    requires forall j :: i <= j < k ==> from <= At(events[j]) && UnderLimit(events[j], l)
    requires Timely(epoch, start, events, delay) && from + delay + 10.0 <= since
    ensures Settled(StateAt(epoch, start, events, k).store.buckets, l, Clock(events, i, k, from))
    ensures Redemptions(epoch, start, events, i, k, l.scope, since) as real
        + Debt(StateAt(epoch, start, events, k), l.scope, from, since) as real
        + Level(StateAt(epoch, start, events, k).store.buckets, l, Clock(events, i, k, from))
      <= Debt(StateAt(epoch, start, events, i), l.scope, from, since) as real
        + Level(StateAt(epoch, start, events, i).store.buckets, l, from) + Accrued(l, from, Clock(events, i, k, from))
    decreases k
  {
    hide Settled, Level, Step, Counts, Debt, UnderLimit, Accrued, InTime, Covered;
    AccruedAdds(l, from, from, from);
    if i < k {
      Books(epoch, start, events, i, k - 1, l, from, delay, since);
      var w, clock, at := StateAt(epoch, start, events, k - 1), Clock(events, i, k - 1, from), At(events[k - 1]);
      IdleGain(w.store.buckets, l, clock, at);
      StepBooks(epoch, w, events[k - 1], l, from, delay, since);
      AccruedAdds(l, from, clock, at);
    }
  }

  lemma {:induction false} AllShortLived(epoch: string, start: World, events: seq<Event>, k: nat, from: real)
    requires k <= |events| && NoTickets(start) && Ordered(events)
    requires k > 0 ==> At(events[k - 1]) <= from
    ensures ShortLived(StateAt(epoch, start, events, k), from)
  {
    hide Step;
    if k > 0 {
      AllShortLived(epoch, start, events, k - 1, At(events[k - 1]));
      StepShortLived(epoch, StateAt(epoch, start, events, k - 1), events[k - 1], At(events[k - 1]));
    }
  }

  lemma NothingOwed(epoch: string, start: World, events: seq<Event>, i: nat, scope: string, from: real, since: real)
    requires i <= |events| && NoTickets(start) && Ordered(events) && from + 10.0 <= since
    requires forall j :: 0 <= j < i ==> At(events[j]) < from
    ensures Debt(StateAt(epoch, start, events, i), scope, from, since) == 0
  {
    if i > 0 { AllShortLived(epoch, start, events, i, At(events[i - 1])); }
    hide Step, Scopes;
    var w := StateAt(epoch, start, events, i);
    assert Outstanding(w.store.tickets, scope, since) == {} && Owed(w.waiting, scope, from) == {};
  }

  // Redemptions in [since, until] of tickets that paid a scope under an unchanged policy: at
  // most its burst plus its rate times the window, the ten seconds before it, and the time a
  // charged request takes to store its ticket.
  lemma RedemptionBound(epoch: string, start: World, events: seq<Event>, i: nat, k: nat, l: Limit, delay: real, since: real, until: real)
    requires i <= k <= |events| && NoTickets(start) && Timely(epoch, start, events, delay) && since <= until
    requires forall j :: 0 <= j < i ==> At(events[j]) < since - 10.0 - delay
    requires forall j :: i <= j < k ==> since - 10.0 - delay <= At(events[j]) <= until && UnderLimit(events[j], l)
    requires Covered(l) && Settled(StateAt(epoch, start, events, i).store.buckets, l, since - 10.0 - delay)
    ensures Redemptions(epoch, start, events, i, k, l.scope, since) as real
         <= l.burst as real + (until - since + 10.0 + delay) * l.rate as real
  {
    hide Settled, Redemptions, StateAt, Level, Debt, UnderLimit, InTime, NoTickets;
    var from := since - 10.0 - delay;
    NothingOwed(epoch, start, events, i, l.scope, from, since);
    Books(epoch, start, events, i, k, l, from, delay, since);
    LevelBounds(StateAt(epoch, start, events, i).store.buckets, l, from);
    LevelBounds(StateAt(epoch, start, events, k).store.buckets, l, Clock(events, i, k, from));
    AccruedAdds(l, from, Clock(events, i, k, from), until);
    assert until - from == until - since + 10.0 + delay;
  }

  // The same from a fresh store, when the policy has never changed.
  lemma RedemptionBoundFromFresh(epoch: string, start: World, events: seq<Event>, i: nat, k: nat, l: Limit, delay: real, since: real, until: real)
    requires i <= k <= |events| && start == World(Traffic(Some(epoch), map[], map[]), map[])
    requires Timely(epoch, start, events, delay) && since <= until
    requires forall j :: 0 <= j < i ==> At(events[j]) < since - 10.0 - delay
    requires forall j :: i <= j < k ==> since - 10.0 - delay <= At(events[j]) <= until
    requires forall j :: 0 <= j < k ==> UnderLimit(events[j], l)
    requires Covered(l)
    ensures Redemptions(epoch, start, events, i, k, l.scope, since) as real
         <= l.burst as real + (until - since + 10.0 + delay) * l.rate as real
  {
    hide Level, Step, Counts, UnderLimit;
    var first := if i > 0 then At(events[0]) else since - 10.0 - delay;
    Books(epoch, start, events, 0, i, l, first, delay, first + delay + 10.0);
    IdleGain(StateAt(epoch, start, events, i).store.buckets, l, Clock(events, 0, i, first), since - 10.0 - delay);
    RedemptionBound(epoch, start, events, i, k, l, delay, since, until);
  }
}
