// The all-or-nothing token bucket that the traffic store runs as one script, over any
// number of scopes.  Tokens and seconds are real numbers.
module TokenBucket {
  import opened Prelude

  // A scope's hash in the store; `deadline` is when the store drops the key.
  datatype Bucket = Bucket(tokens: real, time: real, rate: real, capacity: real, deadline: real)

  // The arguments the script receives for one scope.
  datatype Limit = Limit(scope: string, rate: int, burst: int, lifetime: int)

  datatype Verdict = NoEpoch | Denied(wait: int) | Admitted

  type Buckets = map<string, Bucket>

  function Min(a: real, b: real): real { if a <= b then a else b }

  function Max(a: real, b: real): real { if a >= b then a else b }

  function Ceiling(x: real): int { -((-x).Floor) }

  // ---------------------------------------------------------------------------
  // One scope

  predicate Present(bs: Buckets, scope: string, now: real) {
    scope in bs && now <= bs[scope].deadline
  }

  // The tokens the scope holds at `now`: lazily refilled, full when nothing is stored.
  function Level(bs: Buckets, l: Limit, now: real): real {
    var capacity := l.burst as real;
    if Present(bs, l.scope, now) then
      var b := bs[l.scope];
      Min(Min(capacity, b.capacity), b.tokens + Max(0.0, now - b.time) * b.rate)
    else capacity
  }

  function WaitFor(bs: Buckets, l: Limit, now: real): int
    requires l.rate >= 1
  {
    var tokens := Level(bs, l, now);
    if tokens < 1.0 then Ceiling((1.0 - tokens) / l.rate as real) else 0
  }

  function Debited(bs: Buckets, l: Limit, now: real): Bucket {
    Bucket(Level(bs, l, now) - 1.0, now, l.rate as real, l.burst as real, now + l.lifetime as real)
  }

  // ---------------------------------------------------------------------------
  // All scopes of a request

  predicate Sane(limits: seq<Limit>) {
    forall i :: 0 <= i < |limits| ==> limits[i].rate >= 1 && limits[i].burst >= 1
  }

  predicate DistinctScopes(limits: seq<Limit>) {
    forall i, j :: 0 <= i < j < |limits| ==> limits[i].scope != limits[j].scope
  }

  // The longest wait among the scopes.
  function Wait(bs: Buckets, limits: seq<Limit>, now: real): int
    requires Sane(limits)
  {
    if limits == [] then 0
    else
      var n := |limits| - 1;
      var w := Wait(bs, limits[..n], now);
      if WaitFor(bs, limits[n], now) > w then WaitFor(bs, limits[n], now) else w
  }

  function Charge(bs: Buckets, limits: seq<Limit>, now: real): Buckets {
    map s | s in bs.Keys + ScopesOf(limits) ::
      if s in ScopesOf(limits) then Debited(bs, LimitFor(limits, s), now) else bs[s]
  }

  function ScopesOf(limits: seq<Limit>): set<string> {
    set i | 0 <= i < |limits| :: limits[i].scope
  }

  function LimitFor(limits: seq<Limit>, scope: string): (l: Limit)
    requires scope in ScopesOf(limits)
    ensures l in limits && l.scope == scope
  {
    if limits[|limits| - 1].scope == scope then limits[|limits| - 1]
    else
      assert scope in ScopesOf(limits[..|limits| - 1]) by {
        var i :| 0 <= i < |limits| && limits[i].scope == scope;
        assert limits[..|limits| - 1][i] == limits[i];
      }
      LimitFor(limits[..|limits| - 1], scope)
  }

  function Script(bs: Buckets, limits: seq<Limit>, now: real): (Verdict, Buckets)
    requires Sane(limits)
  {
    var w := Wait(bs, limits, now);
    if w > 0 then (Denied(w), bs) else (Admitted, Charge(bs, limits, now))
  }

  // ---------------------------------------------------------------------------
  // The script as the store runs it

  class TrafficStore {
    var epoch: Option<string>
    var buckets: Buckets

    constructor (e: string)
      ensures epoch == Some(e) && buckets == map[]
    {
      epoch, buckets := Some(e), map[];
    }

    method Evaluate(expected: string, limits: seq<Limit>, now: real) returns (v: Verdict)
      requires Sane(limits) && DistinctScopes(limits)
      modifies this`buckets
      ensures epoch != Some(expected) ==> v == NoEpoch && buckets == old(buckets)
      ensures epoch == Some(expected) ==> (v, buckets) == Script(old(buckets), limits, now)
    {
      if epoch != Some(expected) { return NoEpoch; }
      var proposed, wait := Propose(limits, now);
      if wait > 0 { return Denied(wait); }
      Debit(limits, proposed, now);
      v := Admitted;
    }

    // First pass: every scope's refilled tokens and the longest wait, writing nothing.
    method Propose(limits: seq<Limit>, now: real) returns (proposed: seq<real>, wait: int)
      requires Sane(limits)
      ensures |proposed| == |limits|
      ensures forall j :: 0 <= j < |limits| ==> proposed[j] == Level(buckets, limits[j], now)
      ensures wait == Wait(buckets, limits, now)
    {
      proposed := [];
      wait := 0;
      var i := 0;
      while i < |limits|
        invariant 0 <= i <= |limits| && |proposed| == i
        invariant forall j :: 0 <= j < i ==> proposed[j] == Level(buckets, limits[j], now)
        invariant wait == Wait(buckets, limits[..i], now)
      {
        var tokens := Refill(limits[i], now);
        var needed := 0;
        if tokens < 1.0 { needed := Ceiling((1.0 - tokens) / limits[i].rate as real); }
        assert needed == WaitFor(buckets, limits[i], now);
        WaitOneMore(buckets, limits, i, now);
        proposed := proposed + [tokens];
        if needed > wait { wait := needed; }
        i := i + 1;
      }
      assert limits[..i] == limits;
    }

    method Refill(l: Limit, now: real) returns (tokens: real)
      ensures tokens == Level(buckets, l, now)
    {
      tokens := l.burst as real;
      if l.scope in buckets && now <= buckets[l.scope].deadline {
        var b := buckets[l.scope];
        tokens := Min(Min(tokens, b.capacity), b.tokens + Max(0.0, now - b.time) * b.rate);
      }
    }

    // Second pass: one token off every scope, with the policy of this request.
    method Debit(limits: seq<Limit>, proposed: seq<real>, now: real)
      requires DistinctScopes(limits) && |proposed| == |limits|
      requires forall j :: 0 <= j < |limits| ==> proposed[j] == Level(buckets, limits[j], now)
      modifies this`buckets
      ensures buckets == Charge(old(buckets), limits, now)
    {
      ghost var before := buckets;
      var i := 0;
      while i < |limits|
        invariant 0 <= i <= |limits|
        invariant buckets == Charge(before, limits[..i], now)
      {
        var l := limits[i];
        ChargeOneMore(before, limits, i, now);
        buckets := buckets[l.scope :=
          Bucket(proposed[i] - 1.0, now, l.rate as real, l.burst as real, now + l.lifetime as real)];
        i := i + 1;
      }
      assert limits[..i] == limits;
    }
  }

  lemma WaitOneMore(bs: Buckets, limits: seq<Limit>, i: nat, now: real)
    requires Sane(limits) && i < |limits|
    ensures Wait(bs, limits[..i + 1], now)
      == if WaitFor(bs, limits[i], now) > Wait(bs, limits[..i], now) then WaitFor(bs, limits[i], now)
         else Wait(bs, limits[..i], now)
  {
    assert limits[..i + 1][..i] == limits[..i];
  }

  lemma {:induction false} WaitIsLongest(bs: Buckets, limits: seq<Limit>, now: real)
    requires Sane(limits)
    ensures Wait(bs, limits, now) >= 0
    ensures forall i :: 0 <= i < |limits| ==> WaitFor(bs, limits[i], now) <= Wait(bs, limits, now)
    ensures Wait(bs, limits, now) > 0 ==>
      exists i :: 0 <= i < |limits| && WaitFor(bs, limits[i], now) == Wait(bs, limits, now)
  {
    if limits != [] {
      var n := |limits| - 1;
      WaitIsLongest(bs, limits[..n], now);
      if Wait(bs, limits, now) > 0 && WaitFor(bs, limits[n], now) < Wait(bs, limits, now) {
        var i :| 0 <= i < n && WaitFor(bs, limits[..n][i], now) == Wait(bs, limits[..n], now);
        assert WaitFor(bs, limits[i], now) == Wait(bs, limits, now);
      }
    }
  }

  lemma ScopesOneMore(limits: seq<Limit>, i: nat)
    requires i < |limits|
    ensures ScopesOf(limits[..i + 1]) == ScopesOf(limits[..i]) + {limits[i].scope}
  {
    var a, b := limits[..i + 1], limits[..i];
    forall s | s in ScopesOf(a)
      ensures s in ScopesOf(b) + {limits[i].scope}
    {
      var j :| 0 <= j < |a| && a[j].scope == s;
      if j < i { assert b[j].scope == s; }
    }
    forall s | s in ScopesOf(b)
      ensures s in ScopesOf(a)
    {
      var j :| 0 <= j < |b| && b[j].scope == s;
      assert a[j].scope == s;
    }
    assert a[i].scope == limits[i].scope;
  }

  lemma ChargeOneMore(bs: Buckets, limits: seq<Limit>, i: nat, now: real)
    requires i < |limits| && DistinctScopes(limits)
    ensures Charge(bs, limits[..i + 1], now) == Charge(bs, limits[..i], now)[limits[i].scope := Debited(bs, limits[i], now)]
  {
    ScopesOneMore(limits, i);
    assert limits[..i + 1][..i] == limits[..i];
    assert limits[..i + 1][i] == limits[i];
  }

  // ---------------------------------------------------------------------------
  // What one evaluation does

  // The stored state of the scope is one this policy could have written by `now`.
  ghost predicate Settled(bs: Buckets, l: Limit, now: real) {
    l.scope in bs ==>
      var b := bs[l.scope];
      && b.rate == l.rate as real && b.capacity == l.burst as real
      && 0.0 <= b.tokens <= b.capacity
      && b.time <= now
      && b.deadline == b.time + l.lifetime as real
  }

  // Long enough for an empty bucket to refill before the store drops its key.
  predicate Covered(l: Limit) {
    l.rate >= 1 && l.burst >= 1 && l.lifetime * l.rate >= l.burst
  }

  lemma Refills(l: Limit, elapsed: real)
    requires Covered(l) && elapsed >= l.lifetime as real
    ensures elapsed * l.rate as real >= l.burst as real
  {
    var r := l.rate as real;
    assert elapsed * r >= l.lifetime as real * r;
    assert l.lifetime as real * r == (l.lifetime * l.rate) as real;
  }

  // Dropping an idle key never changes the tokens a scope holds.
  lemma ExpiryAddsNothing(bs: Buckets, l: Limit, now: real)
    requires Covered(l) && Settled(bs, l, now) && l.scope in bs
    ensures Level(bs, l, now) == Min(l.burst as real, bs[l.scope].tokens + (now - bs[l.scope].time) * l.rate as real)
  {
    if !Present(bs, l.scope, now) {
      Refills(l, now - bs[l.scope].time);
    }
  }

  lemma LevelBounds(bs: Buckets, l: Limit, now: real)
    requires Covered(l) && Settled(bs, l, now)
    ensures 0.0 <= Level(bs, l, now) <= l.burst as real
  {
    if l.scope in bs {
      ExpiryAddsNothing(bs, l, now);
      assert (now - bs[l.scope].time) * l.rate as real >= 0.0;
    }
  }

  // The tokens that a scope's rate brings in a stretch of time.
  function Accrued(l: Limit, from: real, to: real): real { (to - from) * l.rate as real }

  lemma AccruedAdds(l: Limit, a: real, b: real, c: real)
    ensures Accrued(l, a, b) + Accrued(l, b, c) == Accrued(l, a, c)
    ensures l.rate >= 0 && b <= c ==> Accrued(l, b, c) >= 0.0
  {
    if l.rate >= 0 && b <= c { NonNegative(c - b, l.rate as real); }
  }

  lemma NonNegative(a: real, b: real)
    requires a >= 0.0 && b >= 0.0
    ensures a * b >= 0.0
  {
  }

  // An idle scope gains at most its rate.
  lemma IdleGain(bs: Buckets, l: Limit, now: real, later: real)
    requires Covered(l) && Settled(bs, l, now) && now <= later
    ensures Settled(bs, l, later)
    ensures Level(bs, l, now) <= Level(bs, l, later) <= Level(bs, l, now) + Accrued(l, now, later)
  {
    var r := l.rate as real;
    if l.scope in bs {
      ExpiryAddsNothing(bs, l, now);
      ExpiryAddsNothing(bs, l, later);
      var t := bs[l.scope].time;
      assert (later - t) * r == (now - t) * r + (later - now) * r;
      assert (later - now) * r >= 0.0;
    } else {
      assert (later - now) * r >= 0.0;
    }
  }

  // The bucket written by an admission.
  lemma DebitTakesOne(bs: Buckets, bs': Buckets, l: Limit, now: real)
    requires Covered(l) && Settled(bs, l, now) && Level(bs, l, now) >= 1.0
    requires l.scope in bs' && bs'[l.scope] == Debited(bs, l, now)
    ensures Settled(bs', l, now)
    ensures Level(bs', l, now) == Level(bs, l, now) - 1.0
  {
    LevelBounds(bs, l, now);
    assert l.lifetime > 0;
  }

  lemma ChargedBucket(bs: Buckets, limits: seq<Limit>, now: real, l: Limit)
    requires DistinctScopes(limits) && l in limits
    ensures l.scope in ScopesOf(limits)
    ensures l.scope in Charge(bs, limits, now) && Charge(bs, limits, now)[l.scope] == Debited(bs, l, now)
  {
    var i :| 0 <= i < |limits| && limits[i] == l;
    assert LimitFor(limits, l.scope) == l;
  }

  // An admission takes exactly one token from each of its scopes and keeps it
  // non-negative; a denial writes nothing.
  lemma OneTokenEach(bs: Buckets, limits: seq<Limit>, now: real, l: Limit)
    requires Sane(limits) && DistinctScopes(limits)
    requires l in limits && Covered(l) && Settled(bs, l, now)
    ensures var (v, bs') := Script(bs, limits, now);
      && Settled(bs', l, now)
      && (v.Admitted? ==> Level(bs', l, now) == Level(bs, l, now) - 1.0 >= 0.0)
      && (!v.Admitted? ==> bs' == bs)
  {
    WaitIsLongest(bs, limits, now);
    if Wait(bs, limits, now) == 0 {
      var i :| 0 <= i < |limits| && limits[i] == l;
      assert WaitFor(bs, limits[i], now) <= 0;
      EnoughTokens(bs, l, now);
      ChargedBucket(bs, limits, now, l);
      DebitTakesOne(bs, Charge(bs, limits, now), l, now);
    }
  }

  // A scope the request does not name is left alone.
  lemma OtherScopesUntouched(bs: Buckets, limits: seq<Limit>, now: real, scope: string)
    requires Sane(limits) && scope !in ScopesOf(limits)
    ensures var bs' := Script(bs, limits, now).1;
      (scope in bs' <==> scope in bs) && (scope in bs ==> bs'[scope] == bs[scope])
  {
  }

  lemma EnoughTokens(bs: Buckets, l: Limit, now: real)
    requires l.rate >= 1
    ensures WaitFor(bs, l, now) <= 0 <==> Level(bs, l, now) >= 1.0
  {
    var tokens := Level(bs, l, now);
    if tokens < 1.0 {
      assert (1.0 - tokens) / l.rate as real > 0.0;
    }
  }

  // ---------------------------------------------------------------------------
  // Retry-After

  // The seconds announced with a denial are the least whole number after which, with
  // nothing else admitted, the same request passes on all of its scopes.
  lemma RetryAfterIsLeast(bs: Buckets, limits: seq<Limit>, now: real, seconds: int)
    requires Sane(limits) && seconds >= 0
    requires forall i :: 0 <= i < |limits| ==> Covered(limits[i]) && Settled(bs, limits[i], now)
    ensures Script(bs, limits, now + seconds as real).0.Admitted? <==> seconds >= Wait(bs, limits, now)
  {
    WaitIsLongest(bs, limits, now);
    WaitIsLongest(bs, limits, now + seconds as real);
    forall i | 0 <= i < |limits|
      ensures WaitFor(bs, limits[i], now + seconds as real) <= 0 <==> seconds >= WaitFor(bs, limits[i], now)
    {
      ScopeRetry(bs, limits[i], now, seconds);
    }
  }

  lemma ScopeRetry(bs: Buckets, l: Limit, now: real, seconds: int)
    requires Covered(l) && Settled(bs, l, now) && seconds >= 0
    ensures WaitFor(bs, l, now + seconds as real) <= 0 <==> seconds >= WaitFor(bs, l, now)
  {
    var later := now + seconds as real;
    EnoughTokens(bs, l, later);
    EnoughTokens(bs, l, now);
    IdleGain(bs, l, now, later);
    var tokens := Level(bs, l, now);
    if tokens < 1.0 {
      GainIsExact(bs, l, now, later);
      CeilingIsLeast((1.0 - tokens) / l.rate as real, seconds);
      Threshold(tokens, l.rate as real, seconds as real);
    }
  }

  // Below its capacity a scope gains exactly its rate.
  lemma GainIsExact(bs: Buckets, l: Limit, now: real, later: real)
    requires Covered(l) && Settled(bs, l, now) && now <= later
    requires Level(bs, l, now) < 1.0
    ensures Level(bs, l, later) == Min(l.burst as real, Level(bs, l, now) + (later - now) * l.rate as real)
  {
    assert l.scope in bs;
    ExpiryAddsNothing(bs, l, now);
    ExpiryAddsNothing(bs, l, later);
    var t, r := bs[l.scope].time, l.rate as real;
    assert (later - t) * r == (now - t) * r + (later - now) * r;
  }

  lemma CeilingIsLeast(x: real, n: int)
    ensures n >= Ceiling(x) <==> n as real >= x
  {
  }

  lemma Threshold(tokens: real, rate: real, seconds: real)
    requires rate > 0.0
    ensures seconds >= (1.0 - tokens) / rate <==> tokens + seconds * rate >= 1.0
  {
    var q := (1.0 - tokens) / rate;
    assert q * rate == 1.0 - tokens;
    if seconds >= q {
      assert seconds * rate >= q * rate;
    } else {
      assert seconds * rate < q * rate;
    }
  }

  // ---------------------------------------------------------------------------
  // Runs of evaluations

  datatype Call = Call(at: real, limits: seq<Limit>)

  function After(bs: Buckets, calls: seq<Call>): Buckets
    requires forall i :: 0 <= i < |calls| ==> Sane(calls[i].limits)
    decreases calls
  {
    if calls == [] then bs
    else After(Script(bs, calls[0].limits, calls[0].at).1, calls[1..])
  }

  // How many of the calls are admitted and charge the scope.
  function AdmittedOn(bs: Buckets, calls: seq<Call>, scope: string): nat
    requires forall i :: 0 <= i < |calls| ==> Sane(calls[i].limits)
    decreases calls
  {
    if calls == [] then 0
    else
      var (v, bs') := Script(bs, calls[0].limits, calls[0].at);
      (if v.Admitted? && scope in ScopesOf(calls[0].limits) then 1 else 0) + AdmittedOn(bs', calls[1..], scope)
  }

  // The calls fall in [start, end], in order, and every one that names the scope
  // carries the same policy for it.
  ghost predicate Window(calls: seq<Call>, start: real, end: real, l: Limit) {
    && start <= end
    && (forall i :: 0 <= i < |calls| ==> Sane(calls[i].limits) && DistinctScopes(calls[i].limits))
    && (forall i :: 0 <= i < |calls| ==> start <= calls[i].at <= end)
    && (forall i, j :: 0 <= i < j < |calls| ==> calls[i].at <= calls[j].at)
    && (forall i :: 0 <= i < |calls| && l.scope in ScopesOf(calls[i].limits) ==> l in calls[i].limits)
  }

  lemma ScriptOnScope(bs: Buckets, call: Call, l: Limit)
    requires Sane(call.limits) && DistinctScopes(call.limits)
    requires Covered(l) && Settled(bs, l, call.at)
    requires l.scope in ScopesOf(call.limits) ==> l in call.limits
    ensures var (v, bs') := Script(bs, call.limits, call.at);
      && Settled(bs', l, call.at)
      && Level(bs', l, call.at)
           == Level(bs, l, call.at) - (if v.Admitted? && l.scope in ScopesOf(call.limits) then 1.0 else 0.0)
      && 0.0 <= Level(bs', l, call.at)
  {
    LevelBounds(bs, l, call.at);
    if l.scope in ScopesOf(call.limits) {
      OneTokenEach(bs, call.limits, call.at, l);
    } else {
      OtherScopesUntouched(bs, call.limits, call.at, l.scope);
    }
  }

  lemma WindowTail(calls: seq<Call>, start: real, end: real, l: Limit)
    requires calls != [] && Window(calls, start, end, l)
    ensures Window(calls[1..], calls[0].at, end, l)
  {
  }

  // Tokens spent and tokens left never exceed tokens held plus tokens accrued.
  lemma {:induction false} Conservation(bs: Buckets, calls: seq<Call>, start: real, end: real, l: Limit)
    requires Covered(l) && Settled(bs, l, start) && Window(calls, start, end, l)
    ensures Settled(After(bs, calls), l, end)
    ensures AdmittedOn(bs, calls, l.scope) as real + Level(After(bs, calls), l, end)
         <= Level(bs, l, start) + Accrued(l, start, end)
    decreases calls
  {
    hide Level, Script, Settled, ScopesOf, Accrued;
    if calls == [] {
      IdleGain(bs, l, start, end);
    } else {
      var c := calls[0];
      IdleGain(bs, l, start, c.at);
      ScriptOnScope(bs, c, l);
      WindowTail(calls, start, end, l);
      Conservation(Script(bs, c.limits, c.at).1, calls[1..], c.at, end, l);
      TakenNow(bs, calls, l);
      AccruedAdds(l, start, c.at, end);
    }
  }

  lemma TakenNow(bs: Buckets, calls: seq<Call>, l: Limit)
    requires calls != [] && forall i :: 0 <= i < |calls| ==> Sane(calls[i].limits) && DistinctScopes(calls[i].limits)
    requires Covered(l) && Settled(bs, l, calls[0].at)
    requires l.scope in ScopesOf(calls[0].limits) ==> l in calls[0].limits
    ensures var bs' := Script(bs, calls[0].limits, calls[0].at).1;
      && After(bs, calls) == After(bs', calls[1..])
      && Level(bs', l, calls[0].at) == Level(bs, l, calls[0].at)
           - (AdmittedOn(bs, calls, l.scope) - AdmittedOn(bs', calls[1..], l.scope)) as real
  {
    ScriptOnScope(bs, calls[0], l);
  }

  // In any window a scope admits at most its burst plus its rate times the window.
  lemma WindowBound(bs: Buckets, calls: seq<Call>, start: real, end: real, l: Limit)
    requires Covered(l) && Settled(bs, l, start) && Window(calls, start, end, l)
    ensures AdmittedOn(bs, calls, l.scope) as real <= l.burst as real + (end - start) * l.rate as real
  {
    hide Level, Settled, AdmittedOn, After, Sane, DistinctScopes, ScopesOf;
    Conservation(bs, calls, start, end, l);
    LevelBounds(bs, l, start);
    LevelBounds(After(bs, calls), l, end);
  }

  // ---------------------------------------------------------------------------
  // A store that keeps idle keys for ever decides the same

  function Kept(bs: Buckets, never: real): Buckets {
    map s | s in bs :: bs[s].(deadline := never)
  }

  // Verdicts of a run against the expiring store.
  function Verdicts(bs: Buckets, calls: seq<Call>): seq<Verdict>
    requires forall i :: 0 <= i < |calls| ==> Sane(calls[i].limits)
    decreases calls
  {
    if calls == [] then []
    else
      var (v, bs') := Script(bs, calls[0].limits, calls[0].at);
      [v] + Verdicts(bs', calls[1..])
  }

  // The same against a store that drops no key before `never`.
  function VerdictsKeeping(bs: Buckets, calls: seq<Call>, never: real): seq<Verdict>
    requires forall i :: 0 <= i < |calls| ==> Sane(calls[i].limits)
    decreases calls
  {
    if calls == [] then []
    else
      var (v, bs') := Script(Kept(bs, never), calls[0].limits, calls[0].at);
      [v] + VerdictsKeeping(bs', calls[1..], never)
  }

  // Every call applies the one policy of each scope it names, in clock order.
  ghost predicate Steady(calls: seq<Call>, policy: map<string, Limit>, start: real, end: real) {
    && (forall i :: 0 <= i < |calls| ==> Sane(calls[i].limits) && DistinctScopes(calls[i].limits))
    && (forall i :: 0 <= i < |calls| ==> start <= calls[i].at <= end)
    && (forall i, j :: 0 <= i < j < |calls| ==> calls[i].at <= calls[j].at)
    && (forall i :: 0 <= i < |calls| ==> UnderPolicy(calls[i].limits, policy))
  }

  ghost predicate UnderPolicy(limits: seq<Limit>, policy: map<string, Limit>) {
    forall l :: l in limits ==> l.scope in policy && policy[l.scope] == l
  }

  ghost predicate Consistent(bs: Buckets, policy: map<string, Limit>, now: real) {
    forall s :: s in policy ==> policy[s].scope == s && Covered(policy[s]) && Settled(bs, policy[s], now)
  }

  lemma SameDecision(bs: Buckets, limits: seq<Limit>, now: real, never: real, policy: map<string, Limit>)
    requires Sane(limits) && UnderPolicy(limits, policy) && Consistent(bs, policy, now) && now <= never
    ensures Wait(bs, limits, now) == Wait(Kept(bs, never), limits, now)
    ensures forall i :: 0 <= i < |limits| ==> Level(bs, limits[i], now) == Level(Kept(bs, never), limits[i], now)
  {
    forall i | 0 <= i < |limits|
      ensures Level(bs, limits[i], now) == Level(Kept(bs, never), limits[i], now)
      ensures WaitFor(bs, limits[i], now) == WaitFor(Kept(bs, never), limits[i], now)
    {
      assert limits[i] in limits;
      SameLevel(bs, limits[i], now, never);
    }
    SameWaits(bs, Kept(bs, never), limits, now);
  }

  lemma SameLevel(bs: Buckets, l: Limit, now: real, never: real)
    requires Covered(l) && Settled(bs, l, now) && now <= never
    ensures Level(bs, l, now) == Level(Kept(bs, never), l, now)
    ensures WaitFor(bs, l, now) == WaitFor(Kept(bs, never), l, now)
  {
    if l.scope in bs { ExpiryAddsNothing(bs, l, now); }
  }

  lemma SameStore(bs: Buckets, limits: seq<Limit>, now: real, never: real)
    requires forall i :: 0 <= i < |limits| ==> Level(bs, limits[i], now) == Level(Kept(bs, never), limits[i], now)
    ensures Kept(Charge(bs, limits, now), never) == Kept(Charge(Kept(bs, never), limits, now), never)
  {
    forall s | s in ScopesOf(limits)
      ensures Debited(bs, LimitFor(limits, s), now) == Debited(Kept(bs, never), LimitFor(limits, s), now)
    {
      var l := LimitFor(limits, s);
      var i :| 0 <= i < |limits| && limits[i] == l;
      assert Level(bs, limits[i], now) == Level(Kept(bs, never), limits[i], now);
    }
  }

  lemma StaysConsistent(bs: Buckets, call: Call, policy: map<string, Limit>, start: real)
    requires Consistent(bs, policy, start) && start <= call.at
    requires Sane(call.limits) && DistinctScopes(call.limits) && UnderPolicy(call.limits, policy)
    ensures Consistent(bs, policy, call.at)
    ensures Consistent(Script(bs, call.limits, call.at).1, policy, call.at)
  {
    forall s | s in policy
      ensures Settled(bs, policy[s], call.at) && Settled(Script(bs, call.limits, call.at).1, policy[s], call.at)
    {
      var l := policy[s];
      IdleGain(bs, l, start, call.at);
      if s in ScopesOf(call.limits) {
        var l' := LimitFor(call.limits, s);
        assert l' == l;
      }
      ScriptOnScope(bs, call, l);
    }
  }

  // Over a whole run under unchanged policies, losing idle keys changes no verdict.
  lemma {:induction false} ExpiryRefinesKeeping(bs: Buckets, kept: Buckets, calls: seq<Call>,
                                                policy: map<string, Limit>, start: real, end: real)
    requires Steady(calls, policy, start, end) && Consistent(bs, policy, start)
    requires Kept(bs, end) == Kept(kept, end)
    ensures Verdicts(bs, calls) == VerdictsKeeping(kept, calls, end)
    decreases calls
  {
    if calls != [] {
      var c := calls[0];
      StaysConsistent(bs, c, policy, start);
      SameDecision(bs, c.limits, c.at, end, policy);
      SameStore(bs, c.limits, c.at, end);
      assert Kept(Kept(bs, end), end) == Kept(bs, end);
      ExpiryRefinesKeeping(Script(bs, c.limits, c.at).1, Script(Kept(kept, end), c.limits, c.at).1,
                           calls[1..], policy, c.at, end);
    }
  }

  lemma {:induction false} SameWaits(a: Buckets, b: Buckets, limits: seq<Limit>, now: real)
    requires Sane(limits)
    requires forall i :: 0 <= i < |limits| ==> WaitFor(a, limits[i], now) == WaitFor(b, limits[i], now)
    ensures Wait(a, limits, now) == Wait(b, limits, now)
  {
    if limits != [] {
      SameWaits(a, b, limits[..|limits| - 1], now);
    }
  }
}
