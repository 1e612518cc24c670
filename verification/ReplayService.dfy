// One process of the internal API: its cache, the table it shares, and the order in which
// a request is checked.
module ReplayService {
  import opened Prelude
  import opened ReplayGuard
  import opened ReplayTable

  class NonceTable {
    var rows: Table

    constructor ()
      ensures rows == map[]
    {
      rows := map[];
    }
  }

  // What a request carries; `timestamp` is None when it is not a whole number, and
  // `genuine` tells whether the signature verifies.
  datatype Message = Message(path: string, version: string, service: string, timestamp: Option<int>,
                             nonce: string, signature: string, genuine: bool)

  const HMAC_VERSION := "internal-hmac-v1"

  predicate IsHex(s: string) {
    forall i :: 0 <= i < |s| ==> '0' <= s[i] <= '9' || 'a' <= s[i] <= 'f' || 'A' <= s[i] <= 'F'
  }

  // The status with which a request is turned away before any nonce is claimed.
  function Screened(m: Message, checked: real, skew: nat): Option<int> {
    if m.version != HMAC_VERSION then Some(401)
    else if m.service != "studio-nginx" then Some(403)
    else if !(32 <= |m.nonce| <= 128 && IsHex(m.nonce)) then Some(401)
    else if !(|m.signature| == 64 && IsHex(m.signature)) then Some(401)
    else if m.timestamp.None? then Some(401)
    else if !InWindow(RequestOf(m, checked), skew) then Some(401)
    else if !m.genuine then Some(403)
    else None
  }

  // Whether the database answers the claim, runs it and loses the answer, or is out of reach.
  datatype Database = Answers | LosesTheAnswer | Down

  function RequestOf(m: Message, checked: real): Request {
    Request(m.service, m.nonce, if m.timestamp.Some? then m.timestamp.value else 0, checked)
  }

  // A request as it should be, timely and genuine.
  ghost predicate WellSigned(m: Message, checked: real, skew: nat) {
    && m.version == "internal-hmac-v1" && m.service == "studio-nginx" && m.genuine
    && 32 <= |m.nonce| <= 128 && AllHex(m.nonce) && |m.signature| == 64 && AllHex(m.signature)
    && m.timestamp.Some? && m.timestamp.value - skew <= checked.Floor <= m.timestamp.value + skew
  }

  ghost predicate AllHex(s: string) {
    forall c :: c in s ==> c in "0123456789abcdefABCDEF"
  }

  lemma HexIff(s: string)
    ensures IsHex(s) <==> AllHex(s)
  {
    forall c: char
      ensures c in "0123456789abcdefABCDEF" <==> '0' <= c <= '9' || 'a' <= c <= 'f' || 'A' <= c <= 'F'
    {
      HexDigit(c);
    }
    assert forall i :: 0 <= i < |s| ==> s[i] in s;
  }

  lemma HexDigit(c: char)
    ensures c in "0123456789abcdefABCDEF" <==> '0' <= c <= '9' || 'a' <= c <= 'f' || 'A' <= c <= 'F'
  {
    var digits := "0123456789abcdefABCDEF";
    assert digits[0] == '0' && digits[1] == '1' && digits[2] == '2' && digits[3] == '3' && digits[4] == '4';
    assert digits[5] == '5' && digits[6] == '6' && digits[7] == '7' && digits[8] == '8' && digits[9] == '9';
    assert digits[10] == 'a' && digits[11] == 'b' && digits[12] == 'c' && digits[13] == 'd' && digits[14] == 'e' && digits[15] == 'f';
    assert digits[16] == 'A' && digits[17] == 'B' && digits[18] == 'C' && digits[19] == 'D' && digits[20] == 'E' && digits[21] == 'F';
  }

  // The process has not met the request's nonce, and nobody has claimed it, in any case of letters.
  ghost predicate NewTo(history: seq<Event>, process: nat, m: Message) {
    forall e :: e in history && (e.Settle? || e.Arrive?) ==>
      && ':' !in e.request.service
      && (e.Settle? || e.process == process ==> !(e.request.service == m.service && SameLetters(e.request.nonce, m.nonce)))
  }

  lemma NewVisit(history: seq<Event>, process: nat, m: Message, checked: real, cache: Cache, skew: nat)
    requires NewTo(history, process, m) && m.service == "studio-nginx" && Distinct(cache)
    requires cache == CacheOf(FleetAt(FRESH, history, |history|, skew), process)
    ensures Passes(cache, RequestOf(m, checked))
  {
    var r := RequestOf(m, checked);
    assert forall k :: 0 <= k < |history| ==> history[k] in history;
    NotInCache(history, |history|, process, r, skew);
    UntrackedPasses(cache, KeyOf(r), checked.Floor);
  }

  lemma NewVisitIsAccepted(history: seq<Event>, process: nat, m: Message, checked: real, events: seq<Event>, skew: nat)
    requires NewTo(history, process, m) && m.service == "studio-nginx" && InWindow(RequestOf(m, checked), skew)
    requires |events| >= 2 && events[0] == Arrive(process, RequestOf(m, checked))
    requires events[1].Settle? && events[1].request == RequestOf(m, checked) && events[1].answered
    ensures Accepts(FRESH, history + events, |history| + 1, skew)
  {
    var all, n := history + events, |history|;
    assert forall k :: 0 <= k < n ==> all[k] == history[k] && history[k] in history;
    assert all[n] == events[0] && all[n + 1] == events[1];
    hide FleetAt, Step, SameLetters;
    NewNonceIsAccepted(all, n, n + 1, skew);
  }

  class Process {
    const id: nat
    const skew: nat
    const table: NonceTable
    var cache: Cache
    var lastPurge: real

    constructor (id: nat, skew: nat, table: NonceTable)
      ensures this.id == id && this.skew == skew && this.table == table && cache == [] && lastPurge == 0.0
    {
      this.id, this.skew, this.table, cache, lastPurge := id, skew, table, [], 0.0;
    }

    // This process and the table stand where `history` left the fleet.
    ghost predicate Shows(history: seq<Event>)
      reads this, table
    {
      var f := FleetAt(FRESH, history, |history|, skew);
      cache == CacheOf(f, id) && table.rows == f.table
    }

    method ClaimInMemory(key: Key, now: int) returns (claimed: bool)
      requires Distinct(cache)
      modifies this`cache
      ensures cache == Remembered(old(cache), key, now, Ttl(skew))
      ensures claimed <==> !LiveIn(Purged(old(cache), now), key, now)
      ensures Distinct(cache) && |cache| <= MAX_TRACKED
    {
      ClaimKeeps(cache, key, now, Ttl(skew));
      while cache != []
        invariant Purged(cache, now) == Purged(old(cache), now) && Distinct(cache)
        decreases |cache|
      {
        if cache[0].expiry > now && |cache| <= MAX_TRACKED { break; }
        cache := cache[1..];
      }
      assert cache == Purged(old(cache), now);
      var i := IndexOf(cache, key);
      OnlyEntry(cache, key, now);
      if i < |cache| && cache[i].expiry > now { return false; }
      cache := (if i < |cache| then cache[..i] + cache[i + 1..] else cache) + [Entry(key, now + Ttl(skew))];
      while |cache| > MAX_TRACKED
        invariant Newest(cache) == Remembered(old(cache), key, now, Ttl(skew))
        decreases |cache|
      {
        cache := cache[1..];
      }
      claimed := true;
    }

    method ClaimInDatabase(key: Key, now: real) returns (claimed: bool)
      modifies table
      ensures (claimed, table.rows) == ClaimRow(old(table.rows), key, now, Ttl(skew))
    {
      claimed := key !in table.rows || table.rows[key] <= now;
      if claimed { table.rows := table.rows[key := now + Ttl(skew) as real]; }
    }

    // At most once a minute; a failed purge is ignored.
    method PurgeExpired(clock: real, now: real, reachable: bool) returns (purged: bool)
      modifies table, this`lastPurge
      ensures lastPurge == if clock - old(lastPurge) < 60.0 then old(lastPurge) else clock
      ensures purged == (clock - old(lastPurge) >= 60.0 && reachable)
      ensures table.rows == if purged then PurgeRows(old(table.rows), now) else old(table.rows)
    {
      if clock - lastPurge < PURGE_INTERVAL { return false; }
      lastPurge := clock;
      if reachable { table.rows := PurgeRows(table.rows, now); }
      purged := reachable;
    }

    // `checked` is the clock when the timestamp is compared, `now` and `later` the database's
    // clock at the claim and at the purge, `clock` the monotonic clock. The request adds its
    // events to the history of the fleet, and is let through exactly when that history
    // accepts it.
    method Authenticate(m: Message, checked: real, database: Database, now: real, clock: real, purge: bool, later: real,
                        ghost history: seq<Event>)
      returns (refused: Option<int>, ghost events: seq<Event>)
      requires Distinct(cache) && Shows(history)
      modifies this`cache, this`lastPurge, table
      ensures Distinct(cache) && Shows(history + events)
      ensures m.path != "/healthz" && database.Answers? && WellSigned(m, checked, skew) && NewTo(history, id, m) ==> refused.None?
      ensures m.path != "/healthz" && !WellSigned(m, checked, skew) ==> refused.Some? && events == []
      ensures m.path == "/healthz" || Screened(m, checked, skew).Some? ==> events == []
      ensures m.path == "/healthz" ==> refused.None?
      ensures m.path != "/healthz" && Screened(m, checked, skew).Some? ==> refused == Screened(m, checked, skew)
      ensures m.path != "/healthz" && Screened(m, checked, skew).None? ==>
        var r := RequestOf(m, checked);
        if !Passes(old(cache), r) then events == [Arrive(id, r)] && refused == Some(401)
        else
          && |events| > 1 && events[0] == Arrive(id, r)
          && events[1] == (if database.Down? then Lose(r) else Settle(r, now, database.Answers?))
          && (refused.None? <==> Accepts(FRESH, history + events, |history| + 1, skew))
          && (refused.Some? ==> |events| == 2 && refused == Some(if database.Answers? then 401 else 503))
          && (refused.None? ==> events[2..] == [] || events[2..] == [Purge(later)])
    {
      refused, events := None, [];
      assert history + events == history;
      HexIff(m.nonce);
      HexIff(m.signature);
      if m.path == "/healthz" { return; }
      if m.version != HMAC_VERSION { refused := Some(401); return; }
      if m.service != "studio-nginx" { refused := Some(403); return; }
      if !(32 <= |m.nonce| <= 128 && IsHex(m.nonce)) { refused := Some(401); return; }
      if !(|m.signature| == 64 && IsHex(m.signature)) { refused := Some(401); return; }
      if m.timestamp.None? { refused := Some(401); return; }
      var whole := checked.Floor;
      var apart := if whole < m.timestamp.value then m.timestamp.value - whole else whole - m.timestamp.value;
      if apart > skew { refused := Some(401); return; }
      if !m.genuine { refused := Some(403); return; }
      ghost var before := cache;
      refused, events := Claim(m, checked, database, now, clock, purge, later, history);
      if database.Answers? && NewTo(history, id, m) {
        NewVisit(history, id, m, checked, before, skew);
        if |events| > 1 { NewVisitIsAccepted(history, id, m, checked, events, skew); }
      }
    }

    method Claim(m: Message, checked: real, database: Database, now: real, clock: real, purge: bool, later: real,
                 ghost history: seq<Event>)
      returns (refused: Option<int>, ghost events: seq<Event>)
      requires Distinct(cache) && Shows(history) && InWindow(RequestOf(m, checked), skew)
      modifies this`cache, this`lastPurge, table
      ensures Distinct(cache) && Shows(history + events)
      ensures var r := RequestOf(m, checked);
        if !Passes(old(cache), r) then events == [Arrive(id, r)] && refused == Some(401)
        else
          && |events| > 1 && events[0] == Arrive(id, r)
          && events[1] == (if database.Down? then Lose(r) else Settle(r, now, database.Answers?))
          && (refused.None? <==> Accepts(FRESH, history + events, |history| + 1, skew))
          && (refused.Some? ==> |events| == 2 && refused == Some(if database.Answers? then 401 else 503))
          && (refused.None? ==> events[2..] == [] || events[2..] == [Purge(later)])
    {
      ghost var r := RequestOf(m, checked);
      var key := CacheKey(m.service, m.nonce);
      refused, events := None, [Arrive(id, r)];
      hide Remembered, LiveIn, Purged, Distinct, InWindow, Lower, FleetAt, Step, Accepts, ClaimRow, Ttl;
      var claimed := ClaimInMemory(key, checked.Floor);
      if !claimed {
        refused := Some(401);
      } else if database.Down? {
        events := events + [Lose(r)];
        refused := Some(503);
      } else {
        claimed := ClaimInDatabase(key, now);
        events := events + [Settle(r, now, database.Answers?)];
        if !database.Answers? {
          refused := Some(503);
        } else if !claimed {
          refused := Some(401);
        } else {
          var purged := PurgeExpired(clock, later, purge);
          if purged { events := events + [Purge(later)]; }
        }
      }
      AfterVisit(history, id, r, events, skew);
    }
  }

  // A request's events in order: the database's half only if the cache let it pass.
  ghost predicate IsVisit(events: seq<Event>, process: nat, r: Request, passes: bool) {
    && 1 <= |events| <= 3 && events[0] == Arrive(process, r)
    && (|events| >= 2 ==> passes && (events[1] == Lose(r) || (events[1].Settle? && events[1].request == r)))
    && (|events| >= 3 ==> events[1].Settle? && events[2].Purge?)
  }

  lemma AfterVisit(history: seq<Event>, process: nat, r: Request, events: seq<Event>, skew: nat)
    requires InWindow(r, skew)
    requires IsVisit(events, process, r, Passes(CacheOf(FleetAt(FRESH, history, |history|, skew), process), r))
    ensures var f, all := FleetAt(FRESH, history, |history|, skew), history + events;
      var g := FleetAt(FRESH, all, |all|, skew);
      && CacheOf(g, process) == Remembered(CacheOf(f, process), KeyOf(r), r.checked.Floor, Ttl(skew))
      && (|events| >= 2 && events[1].Settle? ==>
            var claim := ClaimRow(f.table, KeyOf(r), events[1].at, Ttl(skew));
            && (Accepts(FRESH, all, |history| + 1, skew) <==> events[1].answered && claim.0)
            && g.table == (if |events| == 3 then PurgeRows(claim.1, events[2].at) else claim.1))
      && (|events| == 1 || events[1].Lose? ==> g.table == f.table)
      && (|events| >= 2 && events[1].Lose? ==> !Accepts(FRESH, all, |history| + 1, skew))
  {
    hide Remembered, Passes, InWindow, ClaimRow, KeyOf, FleetAt, Step, CacheOf, PurgeRows, Ttl;
    var f, all, n := FleetAt(FRESH, history, |history|, skew), history + events, |history|;
    Arrival(f, process, r, skew);
    Appended(history, events, skew);
    var g := Step(f, events[0], skew);
    assert |all| == n + |events|;
    if |events| >= 2 {
      assert all[n + 1] == events[1];
      if events[1].Settle? {
        Settling(g, process, r, events[1].at, events[1].answered, skew);
      } else {
        Losing(g, process, r, skew);
      }
      if |events| == 3 { Purging(Step(g, events[1], skew), process, events[2].at, skew); }
    }
  }

  lemma Arrival(f: Fleet, process: nat, r: Request, skew: nat)
    requires InWindow(r, skew)
    ensures var g, c := Step(f, Arrive(process, r), skew), CacheOf(f, process);
      && CacheOf(g, process) == Remembered(c, KeyOf(r), r.checked.Floor, Ttl(skew)) && g.table == f.table
      && (Passes(c, r) ==> r in g.waiting)
  {
    hide Passes, Remembered, KeyOf, InWindow;
  }

  lemma Settling(f: Fleet, process: nat, r: Request, at: real, answered: bool, skew: nat)
    requires r in f.waiting
    ensures var h := Step(f, Settle(r, at, answered), skew);
      CacheOf(h, process) == CacheOf(f, process) && h.table == ClaimRow(f.table, KeyOf(r), at, Ttl(skew)).1
  {
    hide KeyOf, ClaimRow;
  }

  lemma Losing(f: Fleet, process: nat, r: Request, skew: nat)
    ensures CacheOf(Step(f, Lose(r), skew), process) == CacheOf(f, process) && Step(f, Lose(r), skew).table == f.table
  {
  }

  lemma Purging(f: Fleet, process: nat, at: real, skew: nat)
    ensures var h := Step(f, Purge(at), skew);
      CacheOf(h, process) == CacheOf(f, process) && h.table == PurgeRows(f.table, at)
  {
    hide PurgeRows;
  }

  // What up to three further events make of the fleet.
  lemma Appended(history: seq<Event>, events: seq<Event>, skew: nat)
    ensures var f, all, n := FleetAt(FRESH, history, |history|, skew), history + events, |history|;
      && (|events| >= 1 ==> FleetAt(FRESH, all, n + 1, skew) == Step(f, events[0], skew))
      && (|events| >= 2 ==> FleetAt(FRESH, all, n + 2, skew) == Step(Step(f, events[0], skew), events[1], skew))
      && (|events| >= 3 ==> FleetAt(FRESH, all, n + 3, skew)
                            == Step(Step(Step(f, events[0], skew), events[1], skew), events[2], skew))
  {
    hide Step;
    SameBefore(history, events, |history|, skew);
  }

  // Between two requests of a process the others may do anything: its cache stays as it was.
  lemma OthersLeaveTheCache(history: seq<Event>, e: Event, process: nat, skew: nat)
    requires (e.Arrive? || e.Restart?) ==> e.process != process
    ensures CacheOf(FleetAt(FRESH, history + [e], |history| + 1, skew), process)
      == CacheOf(FleetAt(FRESH, history, |history|, skew), process)
  {
    Appended(history, [e], skew);
    hide Remembered, KeyOf, FleetAt;
  }

  lemma {:induction false} SameBefore(history: seq<Event>, events: seq<Event>, k: nat, skew: nat)
    requires k <= |history|
    ensures FleetAt(FRESH, history + events, k, skew) == FleetAt(FRESH, history, k, skew)
    decreases k
  {
    if k > 0 {
      SameBefore(history, events, k - 1, skew);
    }
  }

  lemma OnlyEntry(c: Cache, key: Key, now: int)
    requires Distinct(c)
    ensures LiveIn(c, key, now) <==> IndexOf(c, key) < |c| && c[IndexOf(c, key)].expiry > now
  {
  }
}
