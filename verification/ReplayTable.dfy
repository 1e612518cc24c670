// What any number of processes accept together: each filters with its own cache, loses it
// when it restarts, and settles what passed in one table of claimed nonces.
module ReplayTable {
  import opened Prelude
  import opened ReplayGuard

  // Expiry of each (service, nonce), on the database's clock.
  type Table = map<Key, real>

  // INSERT ... ON CONFLICT DO UPDATE ... WHERE expires_at <= now() RETURNING
  function ClaimRow(t: Table, key: Key, now: real, ttl: nat): (bool, Table) {
    if key !in t || t[key] <= now then (true, t[key := now + ttl as real]) else (false, t)
  }

  function PurgeRows(t: Table, now: real): Table {
    map k | k in t && t[k] > now :: t[k]
  }

  // A signed request: `checked` is when its timestamp was compared with the clock.
  datatype Request = Request(service: string, nonce: string, timestamp: int, checked: real)

  function KeyOf(r: Request): Key { CacheKey(r.service, r.nonce) }

  // The clock is cut to whole seconds before the comparison.
  predicate InWindow(r: Request, skew: nat) {
    r.timestamp - skew <= r.checked.Floor <= r.timestamp + skew
  }

  // `waiting` passed the cache of their process and await the database.
  datatype Fleet = Fleet(caches: map<nat, Cache>, waiting: multiset<Request>, table: Table)

  const FRESH := Fleet(map[], multiset{}, map[])

  // A request arrives at a process; later its claim runs in the database, which may lose the
  // answer, or never gets there. Any of these may come between the two halves of another request.
  datatype Event =
    | Arrive(process: nat, request: Request)
    | Settle(request: Request, at: real, answered: bool)
    | Lose(request: Request)
    | Purge(at: real)
    | Restart(process: nat)

  function CacheOf(f: Fleet, process: nat): Cache {
    if process in f.caches then f.caches[process] else []
  }

  // The process's own cache does not know the nonce.
  predicate Passes(c: Cache, r: Request) {
    !LiveIn(Purged(c, r.checked.Floor), KeyOf(r), r.checked.Floor)
  }

  function Step(f: Fleet, e: Event, skew: nat): Fleet {
    match e
    case Arrive(p, r) =>
      if !InWindow(r, skew) then f
      else f.(caches := f.caches[p := Remembered(CacheOf(f, p), KeyOf(r), r.checked.Floor, Ttl(skew))],
              waiting := if Passes(CacheOf(f, p), r) then f.waiting + multiset{r} else f.waiting)
    case Settle(r, at, _) =>
      if r !in f.waiting then f
      else f.(waiting := f.waiting - multiset{r}, table := ClaimRow(f.table, KeyOf(r), at, Ttl(skew)).1)
    case Lose(r) => f.(waiting := f.waiting - multiset{r})
    case Purge(at) => f.(table := PurgeRows(f.table, at))
    case Restart(p) => f.(caches := f.caches - {p})
  }

  function FleetAt(start: Fleet, events: seq<Event>, k: nat, skew: nat): Fleet
    requires k <= |events|
  {
    if k == 0 then start else Step(FleetAt(start, events, k - 1, skew), events[k - 1], skew)
  }

  // The moment at which a request is let through.
  predicate Accepts(start: Fleet, events: seq<Event>, k: nat, skew: nat)
    requires k < |events|
  {
    var f := FleetAt(start, events, k, skew);
    events[k].Settle? && events[k].answered && events[k].request in f.waiting &&
    ClaimRow(f.table, KeyOf(events[k].request), events[k].at, Ttl(skew)).0
  }

  predicate Stamped(e: Event) { e.Settle? || e.Purge? }

  // The database's clock never runs back, and no request takes longer than `margin` from
  // its timestamp check to its claim.
  ghost predicate Timely(events: seq<Event>, margin: real) {
    && (forall i, j :: 0 <= i < j < |events| && Stamped(events[i]) && Stamped(events[j]) ==> events[i].at <= events[j].at)
    && (forall i :: 0 <= i < |events| && events[i].Settle? ==>
          events[i].request.checked <= events[i].at <= events[i].request.checked + margin)
  }

  ghost predicate SameSignature(a: Request, b: Request) {
    a.service == b.service && Lower(a.nonce) == Lower(b.nonce) && a.timestamp == b.timestamp
  }

  ghost predicate Waiting(f: Fleet, skew: nat) {
    forall r :: r in f.waiting ==> InWindow(r, skew)
  }

  // Whoever waits for the database had its timestamp checked.
  lemma {:induction false} WaitingWereChecked(start: Fleet, events: seq<Event>, k: nat, skew: nat)
    requires k <= |events| && Waiting(start, skew)
    ensures Waiting(FleetAt(start, events, k, skew), skew)
    decreases k
  {
    hide Step, InWindow;
    if k > 0 {
      WaitingWereChecked(start, events, k - 1, skew);
      StepChecks(FleetAt(start, events, k - 1, skew), events[k - 1], skew);
    }
  }

  lemma StepChecks(f: Fleet, e: Event, skew: nat)
    requires Waiting(f, skew)
    ensures Waiting(Step(f, e, skew), skew)
  {
    hide InWindow, Passes, Remembered, KeyOf, ClaimRow;
  }

  lemma RowStays(f: Fleet, e: Event, key: Key, skew: nat)
    requires key in f.table && (Stamped(e) ==> e.at < f.table[key])
    ensures key in Step(f, e, skew).table && Step(f, e, skew).table[key] == f.table[key]
  {
    hide InWindow, Passes, Remembered, KeyOf;
  }

  lemma RowIsSet(f: Fleet, r: Request, at: real, skew: nat)
    requires r in f.waiting && ClaimRow(f.table, KeyOf(r), at, Ttl(skew)).0
    ensures var g := Step(f, Settle(r, at, true), skew).table; KeyOf(r) in g && g[KeyOf(r)] == at + Ttl(skew) as real
  {
    hide KeyOf;
  }

  // An accepted nonce stays claimed, whatever any process does, until it expires.
  lemma {:induction false} StaysClaimed(start: Fleet, events: seq<Event>, i: nat, k: nat, skew: nat)
    requires i < k <= |events| && Accepts(start, events, i, skew)
    requires forall m :: i < m < k && Stamped(events[m]) ==> events[m].at < events[i].at + Ttl(skew) as real
    ensures KeyOf(events[i].request) in FleetAt(start, events, k, skew).table
    ensures FleetAt(start, events, k, skew).table[KeyOf(events[i].request)] == events[i].at + Ttl(skew) as real
    decreases k
  {
    hide Step, ClaimRow, KeyOf, InWindow, Ttl;
    var f := FleetAt(start, events, k - 1, skew);
    assert FleetAt(start, events, k, skew) == Step(f, events[k - 1], skew);
    if i < k - 1 {
      StaysClaimed(start, events, i, k - 1, skew);
      RowStays(f, events[k - 1], KeyOf(events[i].request), skew);
    } else {
      RowIsSet(f, events[i].request, events[i].at, skew);
    }
  }

  // Four seconds between check and claim are safe: a signature is accepted once, by any
  // process, over restarts, lost answers and purges.
  lemma AcceptedOnce(start: Fleet, events: seq<Event>, i: nat, j: nat, skew: nat, margin: real)
    requires i < j < |events| && Waiting(start, skew) && Timely(events, margin) && margin <= 4.0
    requires Accepts(start, events, i, skew) && Accepts(start, events, j, skew)
    ensures !SameSignature(events[i].request, events[j].request)
  {
    var a, b := events[i], events[j];
    if SameSignature(a.request, b.request) {
      WaitingWereChecked(start, events, i, skew);
      WaitingWereChecked(start, events, j, skew);
      assert b.at < a.at + Ttl(skew) as real;
      StaysClaimed(start, events, i, j, skew);
    }
  }

  ghost predicate NeverTwice(skew: nat, margin: real) {
    forall events: seq<Event>, i, j |
      0 <= i < j < |events| && Timely(events, margin) && Accepts(FRESH, events, i, skew) && Accepts(FRESH, events, j, skew) ::
      !SameSignature(events[i].request, events[j].request)
  }

  // The margin is exactly four seconds, one less than the slack in the lifetime: the check
  // may use a clock reading up to a second old.
  lemma MarginIsFourSeconds(skew: nat, margin: real)
    requires margin >= 0.0
    ensures NeverTwice(skew, margin) <==> margin <= 4.0
  {
    if margin <= 4.0 {
      forall events: seq<Event>, i, j |
        0 <= i < j < |events| && Timely(events, margin) && Accepts(FRESH, events, i, skew) && Accepts(FRESH, events, j, skew)
        ensures !SameSignature(events[i].request, events[j].request)
      {
        AcceptedOnce(FRESH, events, i, j, skew, margin);
      }
    } else {
      var events := Replay(skew, margin);
      assert SameSignature(events[1].request, events[3].request);
    }
  }

  const ZEROS := "00000000000000000000000000000000"

  // A process with an empty cache passes the request on to the table.
  lemma FirstVisit(f: Fleet, process: nat, r: Request, skew: nat)
    requires InWindow(r, skew) && process !in f.caches
    ensures var g := Step(f, Arrive(process, r), skew);
      && g.table == f.table && r in g.waiting && g.caches.Keys == f.caches.Keys + {process}
      && forall at: real :: Step(g, Settle(r, at, true), skew).table == ClaimRow(f.table, KeyOf(r), at, Ttl(skew)).1
                         && Step(g, Settle(r, at, true), skew).caches == g.caches
  {
    hide KeyOf, Remembered;
    assert Passes([], r);
  }

  // A request signed as far ahead as allowed, replayed to another process at the end of its
  // last second.
  lemma Replay(skew: nat, margin: real) returns (events: seq<Event>)
    requires margin > 4.0
    ensures |events| == 4 && Timely(events, margin)
    ensures Accepts(FRESH, events, 1, skew) && Accepts(FRESH, events, 3, skew)
    ensures events[0] == Arrive(0, events[1].request) && events[2] == Arrive(1, events[3].request)
    ensures SameSignature(events[1].request, events[3].request)
    ensures |events[1].request.nonce| == 32 && forall i :: 0 <= i < 32 ==> events[1].request.nonce[i] == '0'
  {
    var late := if margin < 5.0 then 5.0 - margin else 0.0;
    var first := Request("studio-nginx", ZEROS, 0, 0.0 - skew as real);
    var second := Request("studio-nginx", ZEROS, 0, skew as real + late);
    events := [Arrive(0, first), Settle(first, first.checked, true),
               Arrive(1, second), Settle(second, skew as real + 5.0, true)];
    assert second.checked.Floor == skew && KeyOf(first) == KeyOf(second);
    assert Timely(events, margin) by { hide KeyOf, InWindow, Accepts; }
    TwoProcesses(first, first.checked, second, skew as real + 5.0, skew);
    hide KeyOf, InWindow, Accepts, Timely;
  }

  // Two processes of a new fleet both let a signature through exactly when the second claim
  // comes after the first has expired.
  lemma TwoProcesses(a: Request, first: real, b: Request, second: real, skew: nat)
    requires InWindow(a, skew) && InWindow(b, skew) && KeyOf(a) == KeyOf(b)
    ensures var events := [Arrive(0, a), Settle(a, first, true), Arrive(1, b), Settle(b, second, true)];
      Accepts(FRESH, events, 1, skew) && (Accepts(FRESH, events, 3, skew) <==> first + Ttl(skew) as real <= second)
  {
    var events := [Arrive(0, a), Settle(a, first, true), Arrive(1, b), Settle(b, second, true)];
    FirstVisit(FRESH, 0, a, skew);
    var f2 := Step(Step(FRESH, events[0], skew), events[1], skew);
    FirstVisit(f2, 1, b, skew);
    hide Step, KeyOf, InWindow;
    assert FleetAt(FRESH, events, 0, skew) == FRESH;
    assert FleetAt(FRESH, events, 1, skew) == Step(FRESH, events[0], skew);
    assert FleetAt(FRESH, events, 2, skew) == f2;
    assert FleetAt(FRESH, events, 3, skew) == Step(f2, events[2], skew);
  }

  // ---------------------------------------------------------------------------
  // What a replay past the margin takes

  // The claims that a process's cache sees among the events from `i` to `j`.
  function ClaimsAt(events: seq<Event>, process: nat, i: nat, j: nat, skew: nat): seq<(Key, int)>
    requires i <= j <= |events|
    decreases j - i
  {
    if i == j then []
    else if events[i].Arrive? && events[i].process == process && InWindow(events[i].request, skew) then
      [(KeyOf(events[i].request), events[i].request.checked.Floor)] + ClaimsAt(events, process, i + 1, j, skew)
    else ClaimsAt(events, process, i + 1, j, skew)
  }

  lemma {:induction false} CacheFollowsClaims(start: Fleet, events: seq<Event>, process: nat, i: nat, j: nat, skew: nat)
    requires i <= j <= |events| && Restart(process) !in events[i..j]
    ensures CacheOf(FleetAt(start, events, j, skew), process)
      == Claims(CacheOf(FleetAt(start, events, i, skew), process), ClaimsAt(events, process, i, j, skew), Ttl(skew))
    decreases j - i
  {
    hide Step, CacheOf, Remembered, KeyOf, InWindow, Ttl;
    if i < j {
      assert events[i..j] == [events[i]] + events[i + 1..j];
      CacheFollowsClaims(start, events, process, i + 1, j, skew);
      var f, later := FleetAt(start, events, i, skew), ClaimsAt(events, process, i + 1, j, skew);
      StepCaches(f, events[i], process, skew);
      assert FleetAt(start, events, i + 1, skew) == Step(f, events[i], skew);
      hide FleetAt;
      if events[i].Arrive? && events[i].process == process && InWindow(events[i].request, skew) {
        var claim := (KeyOf(events[i].request), events[i].request.checked.Floor);
        assert ([claim] + later)[1..] == later;
      }
    }
  }

  lemma StepCaches(f: Fleet, e: Event, process: nat, skew: nat)
    requires e != Restart(process)
    ensures CacheOf(Step(f, e, skew), process) ==
      if e.Arrive? && e.process == process && InWindow(e.request, skew)
      then Remembered(CacheOf(f, process), KeyOf(e.request), e.request.checked.Floor, Ttl(skew))
      else CacheOf(f, process)
  {
    hide Remembered, KeyOf, InWindow, Passes, ClaimRow, Ttl;
  }

  ghost predicate WellKept(f: Fleet) {
    forall p :: p in f.caches ==> Distinct(f.caches[p]) && |f.caches[p]| <= MAX_TRACKED
  }

  lemma {:induction false} CachesWellKept(start: Fleet, events: seq<Event>, k: nat, skew: nat)
    requires k <= |events| && WellKept(start)
    ensures WellKept(FleetAt(start, events, k, skew))
    decreases k
  {
    if k > 0 {
      CachesWellKept(start, events, k - 1, skew);
      var f, e := FleetAt(start, events, k - 1, skew), events[k - 1];
      if e.Arrive? {
        assert Distinct(CacheOf(f, e.process));
        hide Remembered, Distinct;
        ClaimKeeps(CacheOf(f, e.process), KeyOf(e.request), e.request.checked.Floor, Ttl(skew));
      }
    }
  }

  // Whatever the margin, the process that passed a signature turns it away unless it restarted,
  // twenty thousand other claims came between, or one of them read the clock later than any
  // replay can.
  lemma SameProcessRefuses(start: Fleet, events: seq<Event>, i: nat, j: nat, skew: nat)
    requires i < j < |events| && WellKept(start)
    requires events[i].Arrive? && events[j].Arrive? && events[i].process == events[j].process
    requires SameSignature(events[i].request, events[j].request)
    requires InWindow(events[i].request, skew) && InWindow(events[j].request, skew)
    requires Passes(CacheOf(FleetAt(start, events, i, skew), events[i].process), events[i].request)
    requires Restart(events[i].process) !in events[i + 1..j]
    requires var between := ClaimsAt(events, events[i].process, i + 1, j, skew);
      && |between| < 20000
      && (forall m :: 0 <= m < |between| ==> between[m].1 < events[i].request.checked.Floor + Ttl(skew))
    ensures !Passes(CacheOf(FleetAt(start, events, j, skew), events[j].process), events[j].request)
  {
    hide Remembered, KeyOf, Lower, Distinct, Purged, Claims;
    var p, key, ttl := events[i].process, KeyOf(events[i].request), Ttl(skew);
    var seen, now := events[i].request.checked.Floor, events[j].request.checked.Floor;
    var c, between := CacheOf(FleetAt(start, events, i, skew), p), ClaimsAt(events, p, i + 1, j, skew);
    assert KeyOf(events[j].request) == key by { SameKey(events[i].request, events[j].request); }
    ArrivalIsRemembered(start, events, i, skew);
    KeptAt(start, events, i, p, skew);
    KeptAt(start, events, i + 1, p, skew);
    KeptAt(start, events, j, p, skew);
    CacheFollowsClaims(start, events, p, i + 1, j, skew);
    hide FleetAt, ClaimsAt, LiveIn, CacheOf;
    KnownStays(c, key, seen, between, ttl, now);
    ClaimIsExact(CacheOf(FleetAt(start, events, j, skew), p), key, now, ttl);
  }

  lemma SameKey(a: Request, b: Request)
    requires SameSignature(a, b)
    ensures KeyOf(a) == KeyOf(b)
  {
  }

  lemma ArrivalIsRemembered(start: Fleet, events: seq<Event>, i: nat, skew: nat)
    requires i < |events| && events[i].Arrive? && InWindow(events[i].request, skew)
    ensures var r, p := events[i].request, events[i].process;
      CacheOf(FleetAt(start, events, i + 1, skew), p)
      == Remembered(CacheOf(FleetAt(start, events, i, skew), p), KeyOf(r), r.checked.Floor, Ttl(skew))
  {
    hide InWindow, Remembered, KeyOf;
  }

  lemma KeptAt(start: Fleet, events: seq<Event>, k: nat, process: nat, skew: nat)
    requires k <= |events| && WellKept(start)
    ensures var c := CacheOf(FleetAt(start, events, k, skew), process); Distinct(c) && |c| <= MAX_TRACKED
  {
    CachesWellKept(start, events, k, skew);
  }

  // ---------------------------------------------------------------------------
  // New nonces are let through

  ghost predicate SameNonce(a: Request, b: Request) { a.service == b.service && SameLetters(a.nonce, b.nonce) }

  // No service among the first k events has a colon in its name.
  ghost predicate PlainServices(events: seq<Event>, k: nat) {
    forall m :: 0 <= m < k && m < |events| && (events[m].Arrive? || events[m].Settle?) ==> ':' !in events[m].request.service
  }

  // The process has met the nonce in none of the first k events.
  ghost predicate NotArrived(events: seq<Event>, k: nat, process: nat, r: Request) {
    forall m :: 0 <= m < k && m < |events| && events[m].Arrive? && events[m].process == process ==>
      !SameNonce(events[m].request, r)
  }

  // Nobody has claimed it in the database.
  ghost predicate NotSettled(events: seq<Event>, k: nat, r: Request) {
    forall m :: 0 <= m < k && m < |events| && events[m].Settle? ==> !SameNonce(events[m].request, r)
  }

  lemma SameNonceIff(a: Request, b: Request)
    requires ':' !in a.service && ':' !in b.service
    ensures KeyOf(a) == KeyOf(b) <==> SameNonce(a, b)
  {
    KeysIff(a.service, a.nonce, b.service, b.nonce);
  }

  lemma CacheStaysWithout(f: Fleet, e: Event, process: nat, key: Key, skew: nat)
    requires WellKept(f) && !Tracks(CacheOf(f, process), key)
    requires e.Arrive? && e.process == process ==> KeyOf(e.request) != key
    ensures !Tracks(CacheOf(Step(f, e, skew), process), key)
  {
    hide Remembered, KeyOf, Distinct, Tracks;
    if e.Arrive? && e.process == process && InWindow(e.request, skew) {
      EmptyCache(key);
      var c, r := CacheOf(f, process), e.request;
      if Tracks(Remembered(c, KeyOf(r), r.checked.Floor, Ttl(skew)), key) {
        ClaimTracks(c, KeyOf(r), r.checked.Floor, Ttl(skew), key);
      }
    } else {
      EmptyCache(key);
    }
  }

  lemma EmptyCache(key: Key)
    ensures Distinct([]) && !Tracks([], key) && WellKept(FRESH)
  {
  }

  lemma {:induction false} NotInCache(events: seq<Event>, k: nat, process: nat, r: Request, skew: nat)
    requires k <= |events| && PlainServices(events, k) && NotArrived(events, k, process, r) && ':' !in r.service
    ensures !Tracks(CacheOf(FleetAt(FRESH, events, k, skew), process), KeyOf(r))
    decreases k
  {
    EmptyCache(KeyOf(r));
    hide Step, KeyOf, SameNonce, Tracks, WellKept;
    if k > 0 {
      NotInCache(events, k - 1, process, r, skew);
      CachesWellKept(FRESH, events, k - 1, skew);
      var e := events[k - 1];
      if e.Arrive? && e.process == process { SameNonceIff(e.request, r); }
      CacheStaysWithout(FleetAt(FRESH, events, k - 1, skew), e, process, KeyOf(r), skew);
    }
  }

  lemma {:induction false} NotInTable(events: seq<Event>, k: nat, r: Request, skew: nat)
    requires k <= |events| && PlainServices(events, k) && NotSettled(events, k, r) && ':' !in r.service
    ensures KeyOf(r) !in FleetAt(FRESH, events, k, skew).table
    decreases k
  {
    hide KeyOf, SameNonce, InWindow;
    if k > 0 {
      NotInTable(events, k - 1, r, skew);
      if events[k - 1].Settle? { SameNonceIff(events[k - 1].request, r); }
    }
  }

  lemma {:induction false} StaysWaiting(start: Fleet, events: seq<Event>, i: nat, k: nat, r: Request, skew: nat)
    requires i <= k <= |events| && r in FleetAt(start, events, i, skew).waiting
    requires forall m :: i <= m < k && (events[m].Settle? || events[m].Lose?) ==> events[m].request != r
    ensures r in FleetAt(start, events, k, skew).waiting
    decreases k
  {
    hide Step;
    if i < k {
      StaysWaiting(start, events, i, k - 1, r, skew);
      StepWaits(FleetAt(start, events, k - 1, skew), events[k - 1], r, skew);
    }
  }

  lemma StepWaits(f: Fleet, e: Event, r: Request, skew: nat)
    requires r in f.waiting && (e.Settle? || e.Lose? ==> e.request != r)
    ensures r in Step(f, e, skew).waiting
  {
    hide KeyOf, InWindow, Passes;
  }

  // A request in its window gets through if its process has not met the nonce before and
  // nobody has claimed it: other nonces never stand in its way.
  lemma NewNonceIsAccepted(events: seq<Event>, i: nat, j: nat, skew: nat)
    requires i < j < |events| && PlainServices(events, j) && events[i].Arrive? && ':' !in events[i].request.service
    requires var r := events[i].request;
      && r.timestamp - skew <= r.checked.Floor <= r.timestamp + skew
      && events[j].Settle? && events[j].request == r && events[j].answered
      && NotArrived(events, i, events[i].process, r) && NotSettled(events, j, r)
      && (forall m :: i < m < j ==> events[m] != Lose(r))
    ensures Accepts(FRESH, events, j, skew)
  {
    var r, p := events[i].request, events[i].process;
    EmptyCache(KeyOf(r));
    CachesWellKept(FRESH, events, i, skew);
    NotInCache(events, i, p, r, skew);
    UntrackedPasses(CacheOf(FleetAt(FRESH, events, i, skew), p), KeyOf(r), r.checked.Floor);
    NotInTable(events, j, r, skew);
    assert Passes(CacheOf(FleetAt(FRESH, events, i, skew), p), r);
    hide Passes, Remembered, KeyOf, Tracks, ClaimRow, WellKept;
    assert r in FleetAt(FRESH, events, i + 1, skew).waiting;
    hide Step, PlainServices;
    forall m | i + 1 <= m < j && (events[m].Settle? || events[m].Lose?)
      ensures events[m].request != r
    {
      SameAsItself(r);
    }
    StaysWaiting(FRESH, events, i + 1, j, r, skew);
    hide FleetAt;
    assert Accepts(FRESH, events, j, skew) by { NewRow(FleetAt(FRESH, events, j, skew).table, KeyOf(r), events[j].at, Ttl(skew)); }
  }

  lemma SameAsItself(r: Request)
    ensures SameNonce(r, r)
  {
  }

  lemma NewRow(t: Table, key: Key, at: real, ttl: nat)
    requires key !in t
    ensures ClaimRow(t, key, at, ttl).0
  {
  }
}
