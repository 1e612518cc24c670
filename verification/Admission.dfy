// Admission in front of a project: the limits a request is charged against, the ten-second
// ticket that an admitted request receives, and its single redemption at the gateway.
// Digests are taken as injective and stand for the value they digest.
module Admission {
  import opened Prelude
  import opened TokenBucket

  // ---------------------------------------------------------------------------
  // Policies and the limits they become

  datatype RateLimit = RateLimit(perSecond: int, burst: int)

  type Rate = r: RateLimit | 1 <= r.perSecond <= 100000 && 1 <= r.burst <= 1000000 witness RateLimit(1, 1)

  const ADMINISTRATIVE: Rate := RateLimit(20, 40)
  const DISCOVERY: Rate := RateLimit(10, 20)

  datatype Policy = Policy(rate: Option<Rate>, revision: int)

  datatype Policies = Policies(projects: map<Id, Policy>, slots: map<Id, Policy>)

  // Row identifiers are UUIDs in lower case.
  predicate IsIdCharacter(c: char) { '0' <= c <= '9' || 'a' <= c <= 'f' || c == '-' }

  type Id = s: string | |s| > 0 && forall i :: 0 <= i < |s| ==> IsIdCharacter(s[i]) witness "0"

  // Every printed UUID is an identifier of the model.
  lemma UuidsAreIds(s: string) returns (id: Id)
    requires |s| == 36 && forall c :: c in s ==> c in "-0123456789abcdef"
    ensures id == s
  {
    forall i | 0 <= i < |s|
      ensures IsIdCharacter(s[i])
    {
      assert s[i] in s;
      IdDigit(s[i]);
    }
    id := s;
  }

  lemma IdDigit(c: char)
    ensures c in "-0123456789abcdef" ==> IsIdCharacter(c)
  {
  }

  predicate StartsWith(s: string, prefix: string) { |prefix| <= |s| && s[..|prefix|] == prefix }

  predicate EndsWith(s: string, suffix: string) { |suffix| <= |s| && s[|s| - |suffix|..] == suffix }

  // Seconds the store keeps an idle scope.
  function Lifetime(scope: string): int {
    if StartsWith(scope, "discovery:") || EndsWith(scope, ":admin") then 5 else 1000001
  }

  function LimitOf(scope: string, r: Rate): Limit {
    Limit(scope, r.perSecond, r.burst, Lifetime(scope))
  }

  // The limits of the scopes that have one.
  function Limits(scopes: seq<string>, rates: seq<Option<Rate>>): seq<Limit>
    requires |scopes| == |rates|
  {
    if scopes == [] then []
    else
      var n := |scopes| - 1;
      Limits(scopes[..n], rates[..n]) + (if rates[n].Some? then [LimitOf(scopes[n], rates[n].value)] else [])
  }

  // ---------------------------------------------------------------------------
  // Requests, tickets and the traffic store

  datatype Body = Body(uri: string, verb: string, clientIp: string, apiKey: string)

  // Administrative keys belong to no slot.
  datatype Identity = Identity(id: Id, slot: Option<Id>, administrative: bool)

  datatype Refusal = Refused(status: int) | RetryAfter(seconds: int)

  // A request for a ticket.  What geography, the administrative networks and the quota
  // answered are inputs, as are the random name drawn for the ticket and the clock.
  datatype Ask = Ask(body: Body, identity: Option<Identity>, project: Id, service: string, db: Policies,
                     adminOrigin: bool, geography: Option<Refusal>, quota: nat, name: string, at: real)

  datatype Presentation = Presentation(ticket: string, body: Body, identity: Option<Identity>, project: Id,
                                       db: Policies, at: real)

  datatype Binding = Binding(project: Id, key: Option<Id>, credential: string, verb: string, uri: string)

  datatype Ticket = Ticket(binding: Binding, slot: Option<Id>, revisions: seq<int>, service: string,
                           clientIp: string, administrative: bool, epoch: string)

  datatype Held = Held(ticket: Ticket, deadline: real)

  datatype Traffic = Traffic(epoch: Option<string>, buckets: Buckets, tickets: map<string, Held>)

  function KeyId(identity: Option<Identity>): Option<Id> {
    if identity.Some? then Some(identity.value.id) else None
  }

  function SlotId(identity: Option<Identity>): Option<Id> {
    if identity.Some? then identity.value.slot else None
  }

  predicate Administrative(identity: Option<Identity>) { identity.Some? && identity.value.administrative }

  function BindingOf(body: Body, project: Id, key: Option<Id>): Binding {
    Binding(project, key, body.apiKey, body.verb, body.uri)
  }

  function TicketOf(epoch: string, a: Ask, revisions: seq<int>): Ticket {
    Ticket(BindingOf(a.body, a.project, KeyId(a.identity)), SlotId(a.identity), revisions, a.service,
           a.body.clientIp, Administrative(a.identity), epoch)
  }

  function Lookup(db: Policies, project: Id, slot: Option<Id>): Result<(seq<Option<Rate>>, seq<int>), Refusal> {
    if project !in db.projects || (slot.Some? && slot.value !in db.slots) then Err(Refused(503))
    else
      var p := db.projects[project];
      if slot.None? then Ok(([p.rate], [p.revision]))
      else Ok(([p.rate, db.slots[slot.value].rate], [p.revision, db.slots[slot.value].revision]))
  }

  // Administrative keys and discovery have one fixed scope; any other request is charged
  // to its project and, when it carries a key, to the key's slot.
  function Scopes(project: Id, slot: Option<Id>, administrative: bool, service: string, ip: string): seq<string> {
    if administrative then [project + ":admin"]
    else if service == "discovery" then ["discovery:" + ip]
    else if slot.None? then [project + ":" + "project"]
    else [project + ":" + "project", project + ":" + slot.value]
  }

  function ScopesAsked(a: Ask): seq<string> {
    Scopes(a.project, SlotId(a.identity), Administrative(a.identity), a.service, a.body.clientIp)
  }

  function ScopesPaid(t: Ticket): seq<string> {
    Scopes(t.binding.project, t.slot, t.administrative, t.service, t.clientIp)
  }

  function LimitsAsked(a: Ask): seq<Limit>
    requires Lookup(a.db, a.project, SlotId(a.identity)).Ok?
  {
    var rates :=
      if Administrative(a.identity) then [Some(ADMINISTRATIVE)]
      else if a.service == "discovery" then [Some(DISCOVERY)]
      else Lookup(a.db, a.project, SlotId(a.identity)).value.0;
    Limits(ScopesAsked(a), rates)
  }

  // ---------------------------------------------------------------------------
  // The two operations

  // A key past its deadline is gone from the store.
  predicate Live(tickets: map<string, Held>, name: string, now: real) {
    name in tickets && now <= tickets[name].deadline
  }

  function Gate(a: Ask): Option<Refusal> {
    if Lookup(a.db, a.project, SlotId(a.identity)).Err? then Some(Lookup(a.db, a.project, SlotId(a.identity)).error)
    else if Administrative(a.identity) then (if a.adminOrigin then None else Some(Refused(403)))
    else a.geography
  }

  // Everything up to the ticket: it is earned once the scopes and the quota are charged.
  function Earn(epoch: string, t: Traffic, a: Ask): (Result<Option<Ticket>, Refusal>, Traffic) {
    if Gate(a).Some? then (Err(Gate(a).value), t)
    else if a.body.verb == "OPTIONS" then (Ok(None), t)
    else if t.epoch != Some(epoch) then (Err(Refused(503)), t)
    else
      LimitsAreSound(a);
      var (v, buckets) := Script(t.buckets, LimitsAsked(a), a.at);
      if v.Denied? then (Err(RetryAfter(v.wait)), t)
      else
        var charged := t.(buckets := buckets);
        if a.service != "discovery" && a.quota > 0 then (Err(RetryAfter(a.quota)), charged)
        else (Ok(Some(TicketOf(epoch, a, Lookup(a.db, a.project, SlotId(a.identity)).value.1))), charged)
  }

  // A ticket enters the store under a name nobody holds, and lives ten seconds.
  function Put(t: Traffic, name: string, value: Ticket, at: real): (bool, Traffic) {
    if Live(t.tickets, name, at) then (false, t)
    else (true, t.(tickets := t.tickets[name := Held(value, at + 10.0)]))
  }

  // Both halves with nothing between them.
  function Issue(epoch: string, t: Traffic, a: Ask, storedAt: real): (Result<Option<string>, Refusal>, Traffic) {
    var (earned, charged) := Earn(epoch, t, a);
    match earned
    case Err(refusal) => (Err(refusal), charged)
    case Ok(None) => (Ok(None), charged)
    case Ok(Some(value)) =>
      var (stored, t') := Put(charged, a.name, value, storedAt);
      (if stored then Ok(Some(a.name)) else Err(Refused(503)), t')
  }

  predicate WellFormed(ticket: string) {
    |ticket| == 43 && forall i :: 0 <= i < |ticket| ==> TicketCharacter(ticket[i])
  }

  predicate TicketCharacter(c: char) {
    'A' <= c <= 'Z' || 'a' <= c <= 'z' || '0' <= c <= '9' || c == '_' || c == '-'
  }

  // A ticket leaves the store the moment it is presented, whatever comes of it.
  function Redeem(epoch: string, t: Traffic, p: Presentation): (Result<(), Refusal>, Traffic) {
    if !WellFormed(p.ticket) then (Err(Refused(403)), t)
    else if t.epoch != Some(epoch) then (Err(Refused(503)), t)
    else if !Live(t.tickets, p.ticket, p.at) then (Err(Refused(403)), t)
    else
      var value := t.tickets[p.ticket].ticket;
      var spent := t.(tickets := t.tickets - {p.ticket});
      var current := Lookup(p.db, p.project, SlotId(p.identity));
      if value.binding != BindingOf(p.body, p.project, KeyId(p.identity)) || value.epoch != epoch then (Err(Refused(403)), spent)
      else if current.Err? then (Err(current.error), spent)
      else if value.revisions != current.value.1 then (Err(Refused(403)), spent)
      else (Ok(()), spent)
  }

  // ---------------------------------------------------------------------------
  // What the two operations read and compare, field by field

  // The rows that both operations need: the project's, and the slot's if the key has one.
  ghost predicate PolicyRowsExist(db: Policies, project: Id, identity: Option<Identity>) {
    && project in db.projects
    && (identity.Some? && identity.value.slot.Some? ==> identity.value.slot.value in db.slots)
  }

  // The policies as the ticket remembers them.
  ghost predicate RevisionsAre(db: Policies, project: Id, identity: Option<Identity>, revisions: seq<int>) {
    && PolicyRowsExist(db, project, identity)
    && revisions ==
         if identity.Some? && identity.value.slot.Some?
         then [db.projects[project].revision, db.slots[identity.value.slot.value].revision]
         else [db.projects[project].revision]
  }

  lemma LookupIff(db: Policies, project: Id, identity: Option<Identity>, revisions: seq<int>)
    ensures Lookup(db, project, SlotId(identity)).Ok? <==> PolicyRowsExist(db, project, identity)
    ensures Lookup(db, project, SlotId(identity)).Err? ==> Lookup(db, project, SlotId(identity)).error == Refused(503)
    ensures Lookup(db, project, SlotId(identity)).Ok? ==>
      (Lookup(db, project, SlotId(identity)).value.1 == revisions <==> RevisionsAre(db, project, identity, revisions))
  {
  }

  // A ticket is redeemed exactly while it is held, by the request it was issued for: the same
  // project, key, credential, method and uri, under the same revisions and epoch.
  lemma RedeemIff(epoch: string, t: Traffic, p: Presentation)
    ensures Redeem(epoch, t, p).0.Ok? <==>
      && |p.ticket| == 43
      && (forall i :: 0 <= i < 43 ==> var c := p.ticket[i];
            'A' <= c <= 'Z' || 'a' <= c <= 'z' || '0' <= c <= '9' || c == '_' || c == '-')
      && t.epoch == Some(epoch)
      && p.ticket in t.tickets && p.at <= t.tickets[p.ticket].deadline
      && var v := t.tickets[p.ticket].ticket;
         && v.binding.project == p.project
         && v.binding.key == (if p.identity.Some? then Some(p.identity.value.id) else None)
         && v.binding.credential == p.body.apiKey && v.binding.verb == p.body.verb && v.binding.uri == p.body.uri
         && v.epoch == epoch && RevisionsAre(p.db, p.project, p.identity, v.revisions)
  {
    if p.ticket in t.tickets { LookupIff(p.db, p.project, p.identity, t.tickets[p.ticket].ticket.revisions); }
    hide Lookup, RevisionsAre;
  }

  // Which scopes are charged and at what rate: an administrative key's own scope and discovery
  // at their fixed rates, otherwise the project at the project's rate and the slot at the
  // slot's, where they have one.
  lemma LimitsByPolicy(a: Ask)
    requires PolicyRowsExist(a.db, a.project, a.identity)
    ensures Lookup(a.db, a.project, SlotId(a.identity)).Ok?
    ensures LimitsAsked(a) ==
      if a.identity.Some? && a.identity.value.administrative then [Limit(a.project + ":admin", 20, 40, 5)]
      else if a.service == "discovery" then [Limit("discovery:" + a.body.clientIp, 10, 20, 5)]
      else
        (match a.db.projects[a.project].rate
         case Some(r) => [Limit(a.project + ":project", r.perSecond, r.burst, 1000001)]
         case None => [])
        + (if a.identity.None? || a.identity.value.slot.None? then []
           else
             match a.db.slots[a.identity.value.slot.value].rate
             case Some(r) => [Limit(a.project + ":" + a.identity.value.slot.value, r.perSecond, r.burst, 1000001)]
             case None => [])
  {
    hide Lifetime, Limits;
    var scopes := ScopesAsked(a);
    if Administrative(a.identity) {
      assert scopes[0][|scopes[0]| - 6..] == ":admin";
      ShortLifetime(scopes[0]);
      OneLimit(scopes[0], Some(ADMINISTRATIVE));
    } else if a.service == "discovery" {
      assert scopes[0][..10] == "discovery:";
      ShortLifetime(scopes[0]);
      OneLimit(scopes[0], Some(DISCOVERY));
    } else {
      var r := a.db.projects[a.project].rate;
      PathScope(a.project, "project");
      assert scopes[0] == a.project + ":project";
      if SlotId(a.identity).Some? {
        var slot := SlotId(a.identity).value;
        PathScope(a.project, slot);
        TwoLimits(a.project + ":" + "project", r, a.project + ":" + slot, a.db.slots[slot].rate);
      } else {
        OneLimit(a.project + ":" + "project", r);
      }
    }
  }

  // ---------------------------------------------------------------------------
  // Every limit that reaches the store

  // The scopes of projects and slots keep their counters for the long lifetime.
  lemma PathScope(project: Id, rest: string)
    requires rest == "project" || (forall i :: 0 <= i < |rest| ==> IsIdCharacter(rest[i]))
    ensures Lifetime(project + ":" + rest) == 1000001
  {
    var s := project + ":" + rest;
    var n := |s|;
    assert s[1] != 'i' by {
      assert s[1] == if |project| > 1 then project[1] else ':';
    }
    assert "discovery:"[1] == 'i' && (n >= 10 ==> s[..10][1] == s[1]);
    if n >= 6 {
      var m := n - 3 - |project| - 1;
      assert s[n - 3] == if m >= 0 then rest[m] else if m == -1 then ':' else project[n - 3];
      assert ":admin"[3] == 'm' && s[n - 6..][3] == s[n - 3] != 'm';
    }
  }

  // Whatever the policies, the script gets positive rates and bursts, distinct scopes, and
  // a lifetime that lets an empty bucket refill.
  lemma LimitsAreSound(a: Ask)
    requires Lookup(a.db, a.project, SlotId(a.identity)).Ok?
    ensures Sane(LimitsAsked(a)) && DistinctScopes(LimitsAsked(a))
    ensures forall i :: 0 <= i < |LimitsAsked(a)| ==> Covered(LimitsAsked(a)[i])
    ensures forall i :: 0 <= i < |LimitsAsked(a)| ==> LimitsAsked(a)[i].scope in ScopesAsked(a)
  {
    hide Lifetime, Lookup, Limits, Sane, DistinctScopes, Covered;
    var scopes := ScopesAsked(a);
    if Administrative(a.identity) {
      assert scopes[0][|scopes[0]| - 6..] == ":admin";
      FixedLimit(scopes[0], ADMINISTRATIVE);
    } else if a.service == "discovery" {
      assert scopes[0][..10] == "discovery:";
      FixedLimit(scopes[0], DISCOVERY);
    } else {
      var rates := Lookup(a.db, a.project, SlotId(a.identity)).value.0;
      LookupShape(a.db, a.project, SlotId(a.identity));
      if SlotId(a.identity).Some? {
        assert scopes == [scopes[0], scopes[1]] && rates == [rates[0], rates[1]];
        SlotLimits(a.project, SlotId(a.identity).value, rates[0], rates[1]);
      } else {
        assert scopes == [scopes[0]] && rates == [rates[0]];
        ProjectLimit(a.project, rates[0]);
      }
    }
  }

  lemma FixedLimit(scope: string, r: Rate)
    requires StartsWith(scope, "discovery:") || EndsWith(scope, ":admin")
    requires r == ADMINISTRATIVE || r == DISCOVERY
    ensures Limits([scope], [Some(r)]) == [LimitOf(scope, r)] && Covered(LimitOf(scope, r))
    ensures Sane([LimitOf(scope, r)]) && DistinctScopes([LimitOf(scope, r)])
  {
    hide StartsWith, EndsWith;
    ShortLifetime(scope);
    OneLimit(scope, Some(r));
  }

  lemma ProjectLimit(project: Id, r: Option<Rate>)
    ensures var limits := Limits([project + ":" + "project"], [r]);
      && Sane(limits) && DistinctScopes(limits)
      && (forall i :: 0 <= i < |limits| ==> Covered(limits[i]) && limits[i].scope == project + ":" + "project")
  {
    hide Lifetime, Covered;
    PathScope(project, "project");
    LongEnough(project + ":" + "project", r);
    OneLimit(project + ":" + "project", r);
  }

  lemma LongEnough(scope: string, r: Option<Rate>)
    requires Lifetime(scope) == 1000001
    ensures r.Some? ==> Covered(LimitOf(scope, r.value))
  {
  }

  lemma SlotLimits(project: Id, slot: Id, r0: Option<Rate>, r1: Option<Rate>)
    ensures var limits := Limits([project + ":" + "project", project + ":" + slot], [r0, r1]);
      && Sane(limits) && DistinctScopes(limits)
      && (forall i :: 0 <= i < |limits| ==> Covered(limits[i]))
      && (forall i :: 0 <= i < |limits| ==> limits[i].scope in [project + ":" + "project", project + ":" + slot])
  {
    hide Lifetime, Covered;
    var s0, s1 := project + ":" + "project", project + ":" + slot;
    PathScope(project, "project");
    PathScope(project, slot);
    LongEnough(s0, r0);
    LongEnough(s1, r1);
    TwoLimits(s0, r0, s1, r1);
    assert s0 != s1 by {
      assert "project"[0] == 'p' && s0[|project| + 1..] == "project" && s1[|project| + 1..] == slot;
    }
  }

  lemma LookupShape(db: Policies, project: Id, slot: Option<Id>)
    requires Lookup(db, project, slot).Ok?
    ensures |Lookup(db, project, slot).value.0| == if slot.None? then 1 else 2
  {
  }

  lemma ShortLifetime(scope: string)
    requires StartsWith(scope, "discovery:") || EndsWith(scope, ":admin")
    ensures Lifetime(scope) == 5
  {
  }

  lemma OneLimit(scope: string, r: Option<Rate>)
    ensures Limits([scope], [r]) == if r.Some? then [LimitOf(scope, r.value)] else []
  {
  }

  lemma TwoLimits(s0: string, r0: Option<Rate>, s1: string, r1: Option<Rate>)
    ensures Limits([s0, s1], [r0, r1])
      == (if r0.Some? then [LimitOf(s0, r0.value)] else []) + (if r1.Some? then [LimitOf(s1, r1.value)] else [])
  {
    assert [s0, s1][..1] == [s0] && [r0, r1][..1] == [r0];
    OneLimit(s0, r0);
  }
}
