// Replay protection of the internal API: each process filters nonces with a bounded ordered
// cache, and one table shared by every process has the last word.
module ReplayGuard {
  import opened Prelude

  const MAX_TRACKED := 20000
  const PURGE_INTERVAL := 60.0

  type Key = string

  // Nonces are compared in lower case.
  function Lower(s: string): string {
    seq(|s|, i requires 0 <= i < |s| => if 'A' <= s[i] <= 'Z' then s[i] - 'A' + 'a' else s[i])
  }

  function CacheKey(service: string, nonce: string): Key { service + ":" + Lower(nonce) }

  // How long a claim lasts, for the accepted clock difference between the two sides.
  function Ttl(skew: nat): nat { 2 * skew + 5 }

  // ---------------------------------------------------------------------------
  // The cache of one process

  datatype Entry = Entry(key: Key, expiry: int)

  // Oldest claim first, each key once.
  type Cache = seq<Entry>

  predicate Distinct(c: Cache) {
    forall i, j :: 0 <= i < j < |c| ==> c[i].key != c[j].key
  }

  predicate InOrder(c: Cache) {
    forall i, j :: 0 <= i < j < |c| ==> c[i].expiry <= c[j].expiry
  }

  predicate Tracks(c: Cache, key: Key) { exists i :: 0 <= i < |c| && c[i].key == key }

  predicate LiveIn(c: Cache, key: Key, now: int) {
    exists i :: 0 <= i < |c| && c[i].key == key && c[i].expiry > now
  }

  // Drops entries from the front while they are expired or too many.
  function Purged(c: Cache, now: int): Cache {
    if c != [] && (c[0].expiry <= now || |c| > MAX_TRACKED) then Purged(c[1..], now) else c
  }

  function IndexOf(c: Cache, key: Key): (i: nat)
    ensures i <= |c| && (i < |c| ==> c[i].key == key)
    ensures forall j :: 0 <= j < i ==> c[j].key != key
  {
    if c == [] || c[0].key == key then 0 else 1 + IndexOf(c[1..], key)
  }

  function Without(c: Cache, key: Key): Cache {
    var i := IndexOf(c, key);
    if i < |c| then c[..i] + c[i + 1..] else c
  }

  function Newest(c: Cache): Cache {
    if |c| > MAX_TRACKED then c[|c| - MAX_TRACKED..] else c
  }

  function Remembered(c: Cache, key: Key, now: int, ttl: nat): Cache {
    var kept := Purged(c, now);
    if LiveIn(kept, key, now) then kept else Newest(Without(kept, key) + [Entry(key, now + ttl)])
  }

  lemma {:induction false} PurgedIsSuffix(c: Cache, now: int) returns (n: nat)
    ensures n <= |c| && Purged(c, now) == c[n..]
    ensures forall i :: 0 <= i < n ==> c[i].expiry <= now || |c| - i > MAX_TRACKED
    ensures |Purged(c, now)| <= MAX_TRACKED
    ensures n < |c| ==> c[n].expiry > now
  {
    if c != [] && (c[0].expiry <= now || |c| > MAX_TRACKED) {
      var m := PurgedIsSuffix(c[1..], now);
      n := m + 1;
      assert c[1..][m..] == c[n..];
      assert forall i :: 0 < i < n ==> c[i] == c[1..][i - 1];
    } else {
      n := 0;
    }
  }

  lemma WithoutKeeps(c: Cache, key: Key)
    requires Distinct(c)
    ensures Distinct(Without(c, key)) && !Tracks(Without(c, key), key)
    ensures InOrder(c) ==> InOrder(Without(c, key))
    ensures forall e :: e in Without(c, key) <==> e in c && e.key != key
  {
    var i, w := IndexOf(c, key), Without(c, key);
    if i < |c| {
      assert forall j :: 0 <= j < |w| ==> w[j] == c[if j < i then j else j + 1];
      forall e | e in c && e.key != key
        ensures e in w
      {
        var j :| 0 <= j < |c| && c[j] == e;
        assert w[if j < i then j else j - 1] == e;
      }
    }
  }

  // What one claim leaves in the cache, whatever the cache was.
  lemma ClaimKeeps(c: Cache, key: Key, now: int, ttl: nat)
    requires Distinct(c)
    ensures Distinct(Remembered(c, key, now, ttl)) && |Remembered(c, key, now, ttl)| <= 20000
  {
    KeptFacts(c, now);
    var kept := Purged(c, now);
    hide Purged, LiveIn;
    if !LiveIn(kept, key, now) {
      WithoutKeeps(kept, key);
      hide Without;
      AppendedDistinct(Without(kept, key), Entry(key, now + ttl));
    }
  }

  lemma AppendedDistinct(w: Cache, e: Entry)
    requires Distinct(w) && !Tracks(w, e.key)
    ensures Distinct(Newest(w + [e])) && |Newest(w + [e])| <= MAX_TRACKED
  {
  }

  // A claim passes exactly when its nonce has no unexpired entry, and then it is the newest.
  lemma ClaimIsExact(c: Cache, key: Key, now: int, ttl: nat)
    requires Distinct(c) && |c| <= MAX_TRACKED && ttl > 0
    ensures LiveIn(Purged(c, now), key, now) <==> LiveIn(c, key, now)
    ensures var r := Remembered(c, key, now, ttl);
      LiveIn(r, key, now) && (!LiveIn(c, key, now) ==> r[|r| - 1] == Entry(key, now + ttl))
  {
    var n := PurgedIsSuffix(c, now);
    var kept := Purged(c, now);
    if LiveIn(c, key, now) {
      var i :| 0 <= i < |c| && c[i].key == key && c[i].expiry > now;
      assert kept[i - n] == c[i];
    } else {
      var r := Remembered(c, key, now, ttl);
      assert r[|r| - 1] == Entry(key, now + ttl);
    }
  }

  lemma AppendedInOrder(w: Cache, e: Entry)
    requires InOrder(w) && |w| <= MAX_TRACKED
    ensures InOrder(Newest(w + [e])) <==> w == [] || w[|w| - 1].expiry <= e.expiry
  {
    var r := Newest(w + [e]);
    if w != [] {
      assert r[|r| - 1] == e && r[|r| - 2] == w[|w| - 1];
    }
  }

  lemma LastStays(c: Cache, key: Key)
    requires c != [] && c[|c| - 1].key != key
    ensures Without(c, key) != [] && Without(c, key)[|Without(c, key)| - 1] == c[|c| - 1]
  {
  }

  lemma KeptFacts(c: Cache, now: int)
    requires Distinct(c)
    ensures var kept := Purged(c, now);
      && Distinct(kept) && |kept| <= MAX_TRACKED && (InOrder(c) ==> InOrder(kept))
      && (forall e :: e in kept ==> e in c)
      && (kept != [] ==> c != [] && kept[|kept| - 1] == c[|c| - 1])
      && (kept == [] && c != [] ==> c[|c| - 1].expiry <= now)
  {
  }

  // Replacing the key's entry at the end of an ordered cache.
  lemma OrderOfKept(kept: Cache, key: Key, now: int, ttl: nat)
    requires Distinct(kept) && InOrder(kept) && |kept| <= MAX_TRACKED && !LiveIn(kept, key, now)
    ensures InOrder(Newest(Without(kept, key) + [Entry(key, now + ttl)]))
      <==> kept == [] || kept[|kept| - 1].expiry <= now + ttl
  {
    var w := Without(kept, key);
    WithoutKeeps(kept, key);
    AppendedInOrder(w, Entry(key, now + ttl));
    if kept != [] {
      var last := kept[|kept| - 1];
      if last.expiry > now + ttl { LastStays(kept, key); }
      hide Without, Distinct, Newest, LiveIn, IndexOf;
      if last.expiry <= now + ttl && w != [] {
        assert w[|w| - 1] in kept;
      }
    }
  }

  // The cache stays ordered by expiry exactly when this request's clock was not read before
  // that of the newest entry.
  lemma OrderIff(c: Cache, key: Key, now: int, ttl: nat)
    requires Distinct(c) && InOrder(c) && |c| <= MAX_TRACKED && !LiveIn(c, key, now)
    ensures InOrder(Remembered(c, key, now, ttl)) <==> c == [] || c[|c| - 1].expiry <= now + ttl
  {
    hide Distinct, InOrder, LiveIn, Without, Newest, Purged;
    ClaimIsExact(c, key, now, ttl + 1);
    KeptFacts(c, now);
    OrderOfKept(Purged(c, now), key, now, ttl);
    if c == [] { assert Purged(c, now) == []; }
  }

  // With clock readings that arrive in order, it is ordered and holds nothing expired.
  lemma OrderedWhenClocksAre(c: Cache, key: Key, before: int, now: int, ttl: nat)
    requires Distinct(c) && InOrder(c) && |c| <= MAX_TRACKED && before <= now && ttl > 0
    requires forall e :: e in c ==> e.expiry <= before + ttl
    ensures InOrder(Remembered(c, key, now, ttl))
    ensures forall e :: e in Remembered(c, key, now, ttl) ==> now < e.expiry <= now + ttl
  {
    hide Distinct, LiveIn, Without, Newest;
    var n := PurgedIsSuffix(c, now);
    var kept := Purged(c, now);
    assert forall e :: e in kept ==> e in c && e.expiry > now;
    KeptFacts(c, now);
    if !LiveIn(kept, key, now) {
      ClaimIsExact(c, key, now, ttl);
      hide InOrder, Purged;
      OrderIff(c, key, now, ttl);
      WithoutKeeps(kept, key);
      NewestIsPart(Without(kept, key) + [Entry(key, now + ttl)]);
    }
  }

  lemma NewestIsPart(c: Cache)
    ensures forall e :: e in Newest(c) ==> e in c
  {
  }

  // ---------------------------------------------------------------------------
  // What the bound costs

  // An entry sits `p` places before the end of the cache.
  predicate HeldAt(c: Cache, e: Entry, p: nat) { p < |c| && c[|c| - 1 - p] == e }

  function Claims(c: Cache, claims: seq<(Key, int)>, ttl: nat): Cache
    decreases claims
  {
    if claims == [] then c else Claims(Remembered(c, claims[0].0, claims[0].1, ttl), claims[1..], ttl)
  }

  lemma WithoutHolds(c: Cache, key: Key, e: Entry, p: nat) returns (q: nat)
    requires HeldAt(c, e, p) && e.key != key
    ensures q <= p && HeldAt(Without(c, key), e, q)
  {
    var i := IndexOf(c, key);
    q := if i < |c| && i > |c| - 1 - p then p - 1 else p;
  }

  lemma PurgeHolds(c: Cache, e: Entry, p: nat, now: int)
    requires |c| <= MAX_TRACKED && HeldAt(c, e, p) && now < e.expiry
    ensures HeldAt(Purged(c, now), e, p)
  {
  }

  lemma AppendHolds(c: Cache, e: Entry, p: nat, x: Entry)
    requires HeldAt(c, e, p) && p + 1 < MAX_TRACKED
    ensures HeldAt(Newest(c + [x]), e, p + 1)
  {
  }

  lemma ClaimHolds(c: Cache, e: Entry, p: nat, key: Key, now: int, ttl: nat) returns (q: nat)
    requires |c| <= MAX_TRACKED && HeldAt(c, e, p) && now < e.expiry && p + 1 < MAX_TRACKED
    ensures q <= p + 1 && HeldAt(Remembered(c, key, now, ttl), e, q)
  {
    PurgeHolds(c, e, p, now);
    var kept := Purged(c, now);
    if LiveIn(kept, key, now) {
      q := p;
    } else {
      assert e.key != key;
      hide Newest, Without, LiveIn, HeldAt, Purged;
      var held := WithoutHolds(kept, key, e, p);
      AppendHolds(Without(kept, key), e, held, Entry(key, now + ttl));
      q := held + 1;
    }
  }

  // The same process refuses a replay outright unless twenty thousand other claims came
  // between: nothing else makes it forget a nonce early.
  lemma {:induction false} ProcessRemembers(c: Cache, e: Entry, p: nat, claims: seq<(Key, int)>, ttl: nat, now: int)
    requires Distinct(c) && |c| <= MAX_TRACKED && HeldAt(c, e, p) && p + |claims| < 20000
    requires forall i :: 0 <= i < |claims| ==> claims[i].1 < e.expiry
    requires now < e.expiry
    ensures LiveIn(Claims(c, claims, ttl), e.key, now)
    decreases claims
  {
    hide Remembered, Distinct;
    if claims != [] {
      var q := ClaimHolds(c, e, p, claims[0].0, claims[0].1, ttl);
      ClaimKeeps(c, claims[0].0, claims[0].1, ttl);
      ProcessRemembers(Remembered(c, claims[0].0, claims[0].1, ttl), e, q, claims[1..], ttl, now);
    }
  }

  lemma KnownStays(c: Cache, key: Key, seen: int, claims: seq<(Key, int)>, ttl: nat, now: int)
    requires Distinct(c) && |c| <= MAX_TRACKED && ttl > 0 && now < seen + ttl
    requires !LiveIn(Purged(c, seen), key, seen) && |claims| < 20000
    requires forall i :: 0 <= i < |claims| ==> claims[i].1 < seen + ttl
    ensures LiveIn(Claims(Remembered(c, key, seen, ttl), claims, ttl), key, now)
  {
    ClaimIsExact(c, key, seen, ttl);
    ClaimKeeps(c, key, seen, ttl);
    var kept := Remembered(c, key, seen, ttl);
    assert kept != [];
    ProcessRemembers(kept, Entry(key, seen + ttl), 0, claims, ttl, now);
  }

  // Two requests that read the clock in one order and reached the cache in the other.
  lemma LateReadingsDisorder()
    ensures var c := Claims([], [("studio-nginx:a", 5), ("studio-nginx:b", 4)], 605); Distinct(c) && !InOrder(c)
  {
    var first, second := ("studio-nginx:a", 5), ("studio-nginx:b", 4);
    var c := Remembered([], first.0, first.1, 605);
    assert c == [Entry(first.0, 610)];
    assert first.0[13] != second.0[13];
    assert Purged(c, 4) == c;
    var d := Remembered(c, second.0, second.1, 605);
    assert d == [Entry(first.0, 610), Entry(second.0, 609)];
    assert [first, second][1..] == [second];
    assert Claims(c, [second], 605) == d by { assert [second][1..] == []; }
    assert d[0].expiry > d[1].expiry;
  }

  // ---------------------------------------------------------------------------
  // Different nonces do not meet

  // Equal up to the case of letters.
  ghost predicate SameLetters(a: string, b: string) {
    |a| == |b| && forall i :: 0 <= i < |a| ==> SameLetter(a[i], b[i])
  }

  ghost predicate SameLetter(c: char, d: char) {
    || c == d
    || ('A' <= c <= 'Z' && d == c - 'A' + 'a')
    || ('A' <= d <= 'Z' && c == d - 'A' + 'a')
  }

  lemma LowerIff(a: string, b: string)
    ensures Lower(a) == Lower(b) <==> SameLetters(a, b)
  {
    assert |Lower(a)| == |a| && |Lower(b)| == |b|;
    if Lower(a) == Lower(b) {
      forall i | 0 <= i < |a|
        ensures SameLetter(a[i], b[i])
      {
        assert Lower(a)[i] == Lower(b)[i];
      }
    }
  }

  // For services without a colon two keys are equal exactly when the services are and the
  // nonces are equal up to case.
  lemma KeysIff(s: string, m: string, t: string, n: string)
    requires ':' !in s && ':' !in t
    ensures CacheKey(s, m) == CacheKey(t, n) <==> s == t && SameLetters(m, n)
  {
    var a, b := CacheKey(s, m), CacheKey(t, n);
    LowerIff(m, n);
    assert a[|s|] == ':' && b[|t|] == ':';
    assert a[..|s|] == s && b[..|t|] == t && a[|s| + 1..] == Lower(m) && b[|t| + 1..] == Lower(n);
    assert |s| < |t| ==> b[|s|] == t[|s|] && t[|s|] in t;
    assert |t| < |s| ==> a[|t|] == s[|t|] && s[|t|] in s;
  }

  // A claim adds its own key at most.
  lemma ClaimTracks(c: Cache, key: Key, now: int, ttl: nat, other: Key)
    requires Distinct(c) && Tracks(Remembered(c, key, now, ttl), other)
    ensures other == key || Tracks(c, other)
  {
    KeptFacts(c, now);
    var kept := Purged(c, now);
    if !LiveIn(kept, key, now) {
      WithoutKeeps(kept, key);
      NewestIsPart(Without(kept, key) + [Entry(key, now + ttl)]);
    }
    var r := Remembered(c, key, now, ttl);
    var i :| 0 <= i < |r| && r[i].key == other;
    assert r[i] in r;
    hide Newest, Without, Purged;
    if other != key {
      assert r[i] in c;
      var j :| 0 <= j < |c| && c[j] == r[i];
    }
  }

  lemma UntrackedPasses(c: Cache, key: Key, now: int)
    requires Distinct(c) && !Tracks(c, key)
    ensures !LiveIn(Purged(c, now), key, now)
  {
    KeptFacts(c, now);
  }
}
