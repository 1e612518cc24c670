// Planning the move of Studio snippet directories to project identities: who owns a
// directory, where it goes, and whether the directories that meet there can be merged.
module SnippetPlan {
  import opened Prelude

  // ---------------------------------------------------------------------------
  // Names

  predicate IsHex(c: char) { '0' <= c <= '9' || 'a' <= c <= 'f' }

  // A canonical UUID: hexadecimal digits with hyphens at 8, 13, 18 and 23.
  predicate IsUuid(s: string) {
    |s| == 36 && forall i :: 0 <= i < 36 ==> if i == 8 || i == 13 || i == 18 || i == 23 then s[i] == '-' else IsHex(s[i])
  }

  predicate IsNameStart(c: char) { 'a' <= c <= 'z' || c == '_' }

  predicate IsTechnicalName(s: string) {
    && 3 <= |s| <= 40 && IsNameStart(s[0])
    && forall i :: 1 <= i < |s| ==> IsNameStart(s[i]) || '0' <= s[i] <= '9'
  }

  // The shapes of the three kinds of name, letter by letter.
  lemma Shapes(s: string)
    ensures IsUuid(s) <==>
      && |s| == 36 && s[8] == '-' && s[13] == '-' && s[18] == '-' && s[23] == '-'
      && forall i :: 0 <= i < 36 && i != 8 && i != 13 && i != 18 && i != 23 ==> s[i] in "0123456789abcdef"
    ensures IsTechnicalName(s) <==>
      && 3 <= |s| <= 40 && s[0] in "_abcdefghijklmnopqrstuvwxyz"
      && forall i :: 1 <= i < |s| ==> s[i] in "_abcdefghijklmnopqrstuvwxyz" || s[i] in "0123456789"
    ensures IsPublicRef(s) <==> |s| == 20 && forall i :: 0 <= i < 20 ==> s[i] in "abcdefghijklmnopqrstuvwxyz"
  {
    forall c: char
      ensures c in "0123456789" <==> '0' <= c <= '9'
      ensures c in "abcdefghijklmnopqrstuvwxyz" <==> 'a' <= c <= 'z'
      ensures c in "_abcdefghijklmnopqrstuvwxyz" <==> 'a' <= c <= 'z' || c == '_'
      ensures c in "0123456789abcdef" <==> '0' <= c <= '9' || 'a' <= c <= 'f'
    {
      Letters(c);
    }
  }

  lemma Letters(c: char)
    ensures c in "0123456789" <==> '0' <= c <= '9'
    ensures c in "abcdefghijklmnopqrstuvwxyz" <==> 'a' <= c <= 'z'
    ensures c in "_abcdefghijklmnopqrstuvwxyz" <==> 'a' <= c <= 'z' || c == '_'
    ensures c in "0123456789abcdef" <==> '0' <= c <= '9' || 'a' <= c <= 'f'
  {
    InAlphabet("0123456789", '0', c);
    InAlphabet("abcdefghijklmnopqrstuvwxyz", 'a', c);
    var hex, start := "0123456789abcdef", "_abcdefghijklmnopqrstuvwxyz";
    assert hex == "0123456789" + "abcdef" && start == "_" + "abcdefghijklmnopqrstuvwxyz";
    InAlphabet("abcdef", 'a', c);
  }

  // A string of consecutive characters.
  lemma InAlphabet(s: string, first: char, c: char)
    requires first as int + |s| <= 0xD7FF && s != "" && forall i :: 0 <= i < |s| ==> s[i] as int == first as int + i
    ensures c in s <==> first as int <= c as int < first as int + |s|
  {
    if first as int <= c as int < first as int + |s| { assert s[c as int - first as int] == c; }
  }

  predicate StartsWith(s: string, prefix: string) { |prefix| <= |s| && s[..|prefix|] == prefix }

  predicate SeparatorAt(s: string, i: nat) { i + 1 < |s| && s[i] == '_' && s[i + 1] == '_' }

  // Where the first "__" of a string begins, or its length.
  function Separator(s: string): (i: nat)
    ensures i <= |s| && (i < |s| ==> SeparatorAt(s, i))
    ensures forall j :: 0 <= j < i ==> !SeparatorAt(s, j)
  {
    if s == "" || SeparatorAt(s, 0) then 0 else
      var i := 1 + Separator(s[1..]);
      assert forall j :: 0 < j <= i ==> SeparatorAt(s, j) == SeparatorAt(s[1..], j - 1);
      i
  }

  datatype Project = Project(id: string, name: string, legacy: seq<string>, publicRef: string)

  predicate IsPublicRef(s: string) { |s| == 20 && forall i :: 0 <= i < 20 ==> 'a' <= s[i] <= 'z' }

  function NamesOf(p: Project): seq<string> { [p.name] + p.legacy }

  function Identities(catalog: seq<Project>): set<string> { set p | p in catalog :: p.id }

  // Whose directory it is.
  datatype Placement = Unattributed | Ambiguous | Unknown | Stable | Move(target: string)

  function Owners(names: map<string, string>, scope: string): set<string> {
    set n | n in names && (scope == n || StartsWith(scope, n + "__"))
  }

  function Sole(names: set<string>): (n: string)
    requires |names| == 1
    ensures names == {n}
  {
    assert names != {};
    var n :| n in names;
    SingletonSet(names, n);
    n
  }

  lemma SingletonSet(names: set<string>, n: string)
    requires |names| == 1 && n in names
    ensures names == {n}
  {
    assert names - {n} == {} by { assert |names - {n}| == 0; }
  }

  function Place(child: string, names: map<string, string>, identities: set<string>): Placement {
    var i := Separator(child);
    var user := child[..i];
    if i == |child| || !IsUuid(user) then Unattributed
    else
      var scope := child[i + 2..];
      var owners := Owners(names, scope);
      if |owners| > 1 then Ambiguous
      else if |owners| == 1 then
        var n := Sole(owners);
        Move(user + "__" + names[n] + scope[|n|..])
      else if IsUuid(scope[..Separator(scope)]) && scope[..Separator(scope)] in identities then Stable
      else Unknown
  }

  predicate GoodNames(names: map<string, string>, identities: set<string>) {
    forall n :: n in names ==> IsTechnicalName(n) && IsUuid(names[n]) && names[n] in identities
  }

  lemma FirstSeparator(head: string, tail: string)
    requires forall j :: 0 <= j < |head| ==> head[j] != '_'
    requires tail == "" || StartsWith(tail, "__")
    ensures Separator(head + tail) == |head|
  {
    var s := head + tail;
    assert forall j :: 0 <= j < |head| ==> s[j] == head[j];
    if tail != "" {
      assert tail[..2] == "__" && s[|head|] == tail[0] == tail[..2][0] && s[|head| + 1] == tail[1] == tail[..2][1];
      assert SeparatorAt(s, |head|);
    }
  }

  lemma UuidHasNoUnderscore(s: string)
    requires IsUuid(s)
    ensures forall j :: 0 <= j < |s| ==> s[j] != '_'
  {
  }

  // A technical name never begins an identity, alone or followed by more.
  lemma NoNameOwnsIdentity(n: string, id: string, rest: string)
    requires IsTechnicalName(n) && IsUuid(id) && (rest == "" || StartsWith(rest, "__"))
    ensures id + rest != n && !StartsWith(id + rest, n + "__")
  {
    var s, p := id + rest, n + "__";
    assert s[8] == '-';
    if |n| > 8 {
      assert p[8] == n[8] != '-';
      assert |p| <= |s| ==> s[..|p|][8] == s[8];
    } else {
      UuidHasNoUnderscore(id);
      assert s[..|p|][|n|] == s[|n|] == id[|n|] != '_' && p[|n|] == '_';
    }
  }

  lemma RestOfScope(scope: string, n: string)
    requires scope == n || StartsWith(scope, n + "__")
    ensures |n| <= |scope| && (scope[|n|..] == "" || StartsWith(scope[|n|..], "__"))
    ensures scope == n + scope[|n|..]
  {
    if scope != n {
      assert scope[|n|..][..2] == scope[..|n| + 2][|n|..] == "__";
    }
  }

  lemma TargetIsStable(user: string, id: string, rest: string, names: map<string, string>, identities: set<string>)
    requires GoodNames(names, identities) && IsUuid(user) && IsUuid(id) && id in identities
    requires rest == "" || StartsWith(rest, "__")
    ensures Place(user + "__" + id + rest, names, identities) == Stable
  {
    var target, moved := user + "__" + id + rest, id + rest;
    UuidHasNoUnderscore(user);
    UuidHasNoUnderscore(id);
    assert target == user + ("__" + moved);
    FirstSeparator(user, "__" + moved);
    FirstSeparator(id, rest);
    assert target[..36] == user && target[38..] == moved && moved[..36] == id;
    forall m | m in names
      ensures m !in Owners(names, moved)
    {
      NoNameOwnsIdentity(m, id, rest);
    }
    assert Owners(names, moved) == {};
  }

  // Where a directory is moved to is where it then stays: no target is anyone's source.
  lemma TargetsAreStable(child: string, names: map<string, string>, identities: set<string>)
    requires GoodNames(names, identities) && Place(child, names, identities).Move?
    ensures Place(Place(child, names, identities).target, names, identities) == Stable
  {
    var i := Separator(child);
    var user, scope := child[..i], child[i + 2..];
    var n := Sole(Owners(names, scope));
    assert n in Owners(names, scope);
    RestOfScope(scope, n);
    hide IsUuid, Owners;
    TargetIsStable(user, names[n], scope[|n|..], names, identities);
  }

  // ---------------------------------------------------------------------------
  // Where directories go, spelled out

  // The directory is one of this user, under this past or present name of a project.
  ghost predicate Reads(child: string, user: string, n: string, rest: string, names: map<string, string>) {
    && IsUuid(user) && n in names && (rest == "" || StartsWith(rest, "__"))
    && child == user + "__" + n + rest
  }

  ghost predicate OnlyName(user: string, n: string, rest: string, names: map<string, string>) {
    forall m, more :: Reads(user + "__" + n + rest, user, m, more, names) ==> m == n
  }

  // It already names a project by its identity, and no name claims it.
  ghost predicate ReadsIdentity(child: string, user: string, id: string, rest: string, names: map<string, string>, identities: set<string>) {
    && IsUuid(user) && IsUuid(id) && id in identities && (rest == "" || StartsWith(rest, "__"))
    && child == user + "__" + id + rest
    && forall m, more :: !Reads(child, user, m, more, names)
  }

  lemma SplitAtUser(child: string, user: string, scope: string)
    requires IsUuid(user) && child == user + "__" + scope
    ensures Separator(child) == 36 && child[..36] == user && child[38..] == scope
  {
    UuidHasNoUnderscore(user);
    assert child == user + ("__" + scope);
    FirstSeparator(user, "__" + scope);
  }

  lemma OwnersRead(user: string, scope: string, names: map<string, string>, m: string)
    requires IsUuid(user)
    ensures m in Owners(names, scope) <==> exists more :: Reads(user + "__" + scope, user, m, more, names)
  {
    var child := user + "__" + scope;
    if m in Owners(names, scope) {
      RestOfScope(scope, m);
      assert user + "__" + m + scope[|m|..] == user + "__" + (m + scope[|m|..]);
      assert Reads(child, user, m, scope[|m|..], names);
    }
    forall more | Reads(child, user, m, more, names)
      ensures m in Owners(names, scope)
    {
      assert child[38..] == scope && (user + "__" + m + more)[38..] == m + more;
      if more != "" { assert scope[..|m| + 2] == m + more[..2]; }
    }
  }

  // A directory of a user under a name that alone claims it moves to the same user's directory
  // of the project that has or had the name, and keeps the rest of its own name.
  lemma MovesToItsProject(user: string, n: string, rest: string, names: map<string, string>, identities: set<string>)
    requires Reads(user + "__" + n + rest, user, n, rest, names) && OnlyName(user, n, rest, names)
    ensures Place(user + "__" + n + rest, names, identities) == Move(user + "__" + names[n] + rest)
  {
    var scope := n + rest;
    var child := user + "__" + n + rest;
    assert child == user + "__" + scope;
    SplitAtUser(child, user, scope);
    OwnersRead(user, scope, names, n);
    forall m | m in Owners(names, scope)
      ensures m == n
    {
      OwnersRead(user, scope, names, m);
    }
    assert Owners(names, scope) == {n};
  }

  // Nothing else moves.
  lemma MovedReads(child: string, names: map<string, string>, identities: set<string>) returns (user: string, n: string, rest: string)
    requires Place(child, names, identities).Move?
    ensures Reads(child, user, n, rest, names) && OnlyName(user, n, rest, names)
    ensures Place(child, names, identities).target == user + "__" + names[n] + rest
  {
    var i := Separator(child);
    var scope := child[i + 2..];
    user := child[..i];
    n := Sole(Owners(names, scope));
    assert n in Owners(names, scope);
    RestOfScope(scope, n);
    rest := scope[|n|..];
    assert child == user + "__" + scope by { assert child[i..i + 2] == "__"; }
    assert child == user + "__" + n + rest;
    forall m, more | Reads(child, user, m, more, names)
      ensures m == n
    {
      OwnersRead(user, scope, names, m);
    }
  }

  lemma StaysIff(child: string, names: map<string, string>, identities: set<string>)
    ensures Place(child, names, identities) == Stable <==>
      exists user, id, rest :: ReadsIdentity(child, user, id, rest, names, identities)
  {
    if Place(child, names, identities) == Stable {
      var i := Separator(child);
      var user, scope := child[..i], child[i + 2..];
      var k := Separator(scope);
      assert child == user + "__" + scope by { assert child[i..i + 2] == "__"; }
      if k < |scope| { assert scope[k..][..2] == "__"; }
      assert child == user + "__" + scope[..k] + scope[k..] by { assert scope == scope[..k] + scope[k..]; }
      forall m, more
        ensures !Reads(child, user, m, more, names)
      {
        OwnersRead(user, scope, names, m);
      }
      assert ReadsIdentity(child, user, scope[..k], scope[k..], names, identities);
    }
    forall user, id, rest | ReadsIdentity(child, user, id, rest, names, identities)
      ensures Place(child, names, identities) == Stable
    {
      var scope := id + rest;
      assert child == user + "__" + scope;
      SplitAtUser(child, user, scope);
      UuidHasNoUnderscore(id);
      FirstSeparator(id, rest);
      forall m
        ensures m !in Owners(names, scope)
      {
        OwnersRead(user, scope, names, m);
      }
      assert Owners(names, scope) == {};
    }
  }
}
