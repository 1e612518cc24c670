// The catalogue of names and the plan drawn from it.
module SnippetPlanner {
  import opened Prelude
  import opened SnippetPlan
  import opened SnippetTrees

  // ---------------------------------------------------------------------------
  // Who owns each name

  ghost predicate ValidCatalog(catalog: seq<Project>) {
    && (forall i :: 0 <= i < |catalog| ==> IsUuid(catalog[i].id) && IsPublicRef(catalog[i].publicRef))
    && (forall i, j :: 0 <= i < j < |catalog| ==> catalog[i].id != catalog[j].id)
    && (forall i, n :: 0 <= i < |catalog| && n in NamesOf(catalog[i]) ==> IsTechnicalName(n))
    && (forall i, j, n :: 0 <= i < j < |catalog| && n in NamesOf(catalog[i]) ==> n !in NamesOf(catalog[j]))
  }

  // The map gives every present and past name its one project.
  ghost predicate Maps(names: map<string, string>, catalog: seq<Project>) {
    && (forall i, n :: 0 <= i < |catalog| && n in NamesOf(catalog[i]) ==> n in names && names[n] == catalog[i].id)
    && (forall n :: n in names ==> exists i :: 0 <= i < |catalog| && n in NamesOf(catalog[i]))
  }

  method ClaimNames(names: map<string, string>, p: Project) returns (ok: bool, claimed: map<string, string>)
    ensures ok <==> forall n :: n in NamesOf(p) ==> IsTechnicalName(n) && (n in names ==> names[n] == p.id)
    ensures ok ==> forall n :: n in claimed <==> n in names || n in NamesOf(p)
    ensures ok ==> forall n :: n in claimed ==> claimed[n] == if n in NamesOf(p) then p.id else names[n]
  {
    hide IsTechnicalName, NamesOf;
    var all := NamesOf(p);
    claimed := names;
    var j := 0;
    while j < |all|
      invariant 0 <= j <= |all|
      invariant forall n :: n in all[..j] ==> IsTechnicalName(n) && (n in names ==> names[n] == p.id)
      invariant forall n :: n in claimed <==> n in names || n in all[..j]
      invariant forall n :: n in claimed ==> claimed[n] == if n in all[..j] then p.id else names[n]
    {
      var name := all[j];
      assert name in all;
      if !IsTechnicalName(name) || (name in claimed && claimed[name] != p.id) { return false, claimed; }
      claimed := claimed[name := p.id];
      assert all[..j + 1] == all[..j] + [name];
      j := j + 1;
    }
    assert all[..j] == all;
    ok := true;
  }

  lemma CatalogOneMore(catalog: seq<Project>, i: nat, names: map<string, string>)
    requires i < |catalog| && ValidCatalog(catalog[..i]) && Maps(names, catalog[..i])
    ensures ValidCatalog(catalog[..i + 1]) <==>
      && IsUuid(catalog[i].id) && IsPublicRef(catalog[i].publicRef) && catalog[i].id !in Identities(catalog[..i])
      && forall n :: n in NamesOf(catalog[i]) ==> IsTechnicalName(n) && (n in names ==> names[n] == catalog[i].id)
  {
    hide IsTechnicalName, NamesOf, IsUuid, IsPublicRef;
    var all, some, p := catalog[..i + 1], catalog[..i], catalog[i];
    assert all[i] == p && forall k :: 0 <= k < i ==> all[k] == some[k];
    if ValidCatalog(all) {
      forall k | 0 <= k < i
        ensures some[k].id != p.id
        ensures forall n :: n in NamesOf(p) ==> n !in NamesOf(some[k])
      {
        assert all[k].id != all[i].id;
        assert forall n :: n in NamesOf(all[k]) ==> n !in NamesOf(all[i]);
      }
    }
  }

  lemma CatalogPrefix(catalog: seq<Project>, i: nat)
    requires ValidCatalog(catalog) && i <= |catalog|
    ensures ValidCatalog(catalog[..i])
  {
  }

  // Reads the catalogue, and refuses exactly those that leave a name without one owner.
  method Mapping(catalog: seq<Project>) returns (r: Option<map<string, string>>)
    ensures r.Some? <==> ValidCatalog(catalog)
    ensures r.Some? ==> Maps(r.value, catalog) && GoodNames(r.value, Identities(catalog))
  {
    var names, identities := map[], {};
    var i := 0;
    while i < |catalog|
      invariant 0 <= i <= |catalog| && identities == Identities(catalog[..i])
      invariant ValidCatalog(catalog[..i]) && Maps(names, catalog[..i])
    {
      var p := catalog[i];
      CatalogOneMore(catalog, i, names);
      if ValidCatalog(catalog) { CatalogPrefix(catalog, i + 1); }
      hide ValidCatalog;
      if !IsUuid(p.id) || p.id in identities || !IsPublicRef(p.publicRef) { return None; }
      var ok, claimed := ClaimNames(names, p);
      if !ok { return None; }
      assert catalog[..i + 1] == catalog[..i] + [p];
      MapsOneMore(names, claimed, catalog[..i], p);
      names, identities := claimed, identities + {p.id};
      i := i + 1;
    }
    assert catalog[..i] == catalog;
    NamesAreGood(names, catalog);
    r := Some(names);
  }

  lemma MapsOneMore(names: map<string, string>, claimed: map<string, string>, some: seq<Project>, p: Project)
    requires Maps(names, some)
    requires forall n :: n in NamesOf(p) ==> n in names ==> names[n] == p.id
    requires forall n :: n in claimed <==> n in names || n in NamesOf(p)
    requires forall n :: n in claimed ==> claimed[n] == if n in NamesOf(p) then p.id else names[n]
    ensures Maps(claimed, some + [p])
  {
    hide NamesOf;
    var all := some + [p];
    forall n | n in claimed
      ensures exists i :: 0 <= i < |all| && n in NamesOf(all[i])
    {
      if n in NamesOf(p) {
        assert all[|some|] == p;
      } else {
        var i :| 0 <= i < |some| && n in NamesOf(some[i]);
        assert all[i] == some[i];
      }
    }
  }

  lemma NamesAreGood(names: map<string, string>, catalog: seq<Project>)
    requires ValidCatalog(catalog) && Maps(names, catalog)
    ensures GoodNames(names, Identities(catalog))
  {
  }

  // ---------------------------------------------------------------------------
  // The plan

  datatype PlanError = Unfinished | BadCatalog | CannotPlace(child: string) | Conflict(target: string)

  // Groups in the order in which their targets were met, with their sources in order.
  datatype Groups = Groups(order: seq<string>, sources: map<string, seq<string>>)

  // The listed directories that move to a target.
  function MovedTo(listing: seq<string>, target: string, names: map<string, string>, identities: set<string>): seq<string> {
    if listing == [] then []
    else
      var n := |listing| - 1;
      MovedTo(listing[..n], target, names, identities)
      + if Place(listing[n], names, identities) == Move(target) then [listing[n]] else []
  }

  // A target that exists comes first among its own sources.
  function SourcesOf(dirs: map<string, Tree>, listing: seq<string>, target: string,
                     names: map<string, string>, identities: set<string>): seq<string>
  {
    (if target in dirs then [target] else []) + MovedTo(listing, target, names, identities)
  }

  predicate Placed(child: string, names: map<string, string>, identities: set<string>) {
    Place(child, names, identities).Move? || Place(child, names, identities).Stable?
  }

  function TreesOf(dirs: map<string, Tree>, sources: seq<string>): seq<Tree>
    requires forall s :: s in sources ==> s in dirs
  {
    seq(|sources|, i requires 0 <= i < |sources| => dirs[sources[i]])
  }

  predicate NoRepeats(s: seq<string>) { forall i, j :: 0 <= i < j < |s| ==> s[i] != s[j] }

  // A listing names each directory once.
  ghost predicate Lists(listing: seq<string>, dirs: map<string, Tree>) {
    NoRepeats(listing) && forall c :: c in listing <==> c in dirs
  }

  lemma {:induction false} MovedToHolds(listing: seq<string>, target: string, names: map<string, string>, identities: set<string>)
    ensures forall c :: c in MovedTo(listing, target, names, identities) <==>
      c in listing && Place(c, names, identities) == Move(target)
    ensures NoRepeats(listing) ==> NoRepeats(MovedTo(listing, target, names, identities))
  {
    hide Place;
    if listing != [] {
      var n := |listing| - 1;
      MovedToHolds(listing[..n], target, names, identities);
      assert forall c :: c in listing <==> c in listing[..n] || c == listing[n];
    }
  }

  // The groups are those of the listed directories, each with its sources.
  ghost predicate Grouped(g: Groups, listing: seq<string>, names: map<string, string>, identities: set<string>) {
    && NoRepeats(g.order)
    && (forall t :: t in g.order <==> t in g.sources)
    && (forall t :: t in g.sources <==> MovedTo(listing, t, names, identities) != [])
    && (forall t :: t in g.sources ==> g.sources[t] == MovedTo(listing, t, names, identities))
  }

  method Group(listing: seq<string>, names: map<string, string>, identities: set<string>) returns (r: Result<Groups, PlanError>)
    ensures r.Ok? <==> forall c :: c in listing ==> Placed(c, names, identities)
    ensures r.Ok? ==> Grouped(r.value, listing, names, identities)
    ensures r.Err? ==> r.error.CannotPlace? && r.error.child in listing && !Placed(r.error.child, names, identities)
  {
    hide Place, NoRepeats;
    var g := Groups([], map[]);
    EmptyGroups(names, identities);
    var i := 0;
    while i < |listing|
      invariant 0 <= i <= |listing|
      invariant forall c :: c in listing[..i] ==> Placed(c, names, identities)
      invariant Grouped(g, listing[..i], names, identities)
    {
      var child := listing[i];
      var place := Place(child, names, identities);
      assert child in listing && listing[..i + 1] == listing[..i] + [child];
      if !place.Move? && !place.Stable? { return Err(CannotPlace(child)); }
      GroupOneMore(g, listing[..i], child, names, identities);
      if place.Move? { g := Appended(g, place.target, child); }
      i := i + 1;
    }
    assert listing[..i] == listing;
    r := Ok(g);
  }

  // groups.setdefault(target, []).append(child)
  function Appended(g: Groups, target: string, child: string): Groups {
    if target in g.sources then g.(sources := g.sources[target := g.sources[target] + [child]])
    else Groups(g.order + [target], g.sources[target := [child]])
  }

  lemma EmptyGroups(names: map<string, string>, identities: set<string>)
    ensures Grouped(Groups([], map[]), [], names, identities)
  {
  }



  lemma GroupOneMore(g: Groups, some: seq<string>, child: string, names: map<string, string>, identities: set<string>)
    requires Grouped(g, some, names, identities)
    ensures var place := Place(child, names, identities);
      Grouped(if place.Move? then Appended(g, place.target, child) else g, some + [child], names, identities)
  {
  }

  // What a migration needs of its groups: each has sources, the sources are there and can be
  // merged, an existing target is among its own, and no directory is wanted twice.
  ghost predicate WellPlanned(g: Groups, dirs: map<string, Tree>) {
    && NoRepeats(g.order)
    && (forall t :: t in g.order <==> t in g.sources)
    && (forall t :: t in g.sources ==> GoodGroup(t, g.sources[t], dirs))
    && (forall t, u, s :: t in g.sources && u in g.sources && s in g.sources[t] && s in g.sources[u] ==> t == u)
    && (forall t, u :: t in g.sources && u in g.sources && t in g.sources[u] ==> t == u)
  }

  ghost predicate GoodGroup(target: string, sources: seq<string>, dirs: map<string, Tree>) {
    && sources != [] && NoRepeats(sources)
    && (forall s :: s in sources ==> s in dirs)
    && (target in dirs ==> target in sources)
    && Compatible(TreesOf(dirs, sources))
  }

  ghost predicate Planned(g: Groups, dirs: map<string, Tree>, listing: seq<string>, names: map<string, string>, identities: set<string>) {
    && NoRepeats(g.order)
    && (forall t :: t in g.order <==> t in g.sources)
    && (forall t :: t in g.sources <==> MovedTo(listing, t, names, identities) != [])
    && (forall t :: t in g.sources ==> g.sources[t] == SourcesOf(dirs, listing, t, names, identities))
    && (forall t :: t in g.sources ==> forall s :: s in g.sources[t] ==> s in dirs)
    && (forall t :: t in g.sources ==> Compatible(TreesOf(dirs, g.sources[t])))
  }

  lemma TargetIsNotMoved(listing: seq<string>, t: string, u: string, names: map<string, string>, identities: set<string>)
    requires GoodNames(names, identities) && MovedTo(listing, t, names, identities) != []
    ensures t !in MovedTo(listing, u, names, identities)
  {
    hide Place;
    MovedToHolds(listing, t, names, identities);
    MovedToHolds(listing, u, names, identities);
    var c := MovedTo(listing, t, names, identities)[0];
    assert c in MovedTo(listing, t, names, identities);
    TargetsAreStable(c, names, identities);
  }

  lemma SourcesHold(dirs: map<string, Tree>, listing: seq<string>, t: string, names: map<string, string>, identities: set<string>)
    requires Lists(listing, dirs) && GoodNames(names, identities) && MovedTo(listing, t, names, identities) != []
    ensures var sources := SourcesOf(dirs, listing, t, names, identities);
      && sources != [] && NoRepeats(sources) && (forall s :: s in sources ==> s in dirs)
      && (t in dirs ==> t in sources)
      && forall s :: s in sources ==> s == t || Place(s, names, identities) == Move(t)
  {
    hide Place, GoodNames;
    MovedToHolds(listing, t, names, identities);
    TargetIsNotMoved(listing, t, t, names, identities);
  }

  // A plan is one: in particular no group's target is another group's source.
  lemma PlannedIsWell(g: Groups, dirs: map<string, Tree>, listing: seq<string>, names: map<string, string>, identities: set<string>)
    requires Planned(g, dirs, listing, names, identities) && Lists(listing, dirs) && GoodNames(names, identities)
    ensures WellPlanned(g, dirs)
  {
    hide Place, MovedTo, SourcesOf, NoRepeats, Compatible, GoodNames;
    forall t | t in g.sources
      ensures GoodGroup(t, g.sources[t], dirs)
    {
      SourcesHold(dirs, listing, t, names, identities);
    }
    forall t, u | t in g.sources && u in g.sources && t in g.sources[u]
      ensures t == u
    {
      SourcesHold(dirs, listing, u, names, identities);
      TargetIsNotMoved(listing, t, u, names, identities);
      MovedToHolds(listing, u, names, identities);
    }
    forall t, u, s | t in g.sources && u in g.sources && s in g.sources[t] && s in g.sources[u]
      ensures t == u
    {
      SourcesHold(dirs, listing, t, names, identities);
      SourcesHold(dirs, listing, u, names, identities);
    }
  }

  // Puts an existing target first in its group and checks that the sources can be merged.
  method CheckGroups(grouped: Groups, dirs: map<string, Tree>, ghost listing: seq<string>,
                     ghost names: map<string, string>, ghost identities: set<string>) returns (r: Result<Groups, PlanError>)
    requires Lists(listing, dirs) && (forall c :: c in dirs ==> WellFormed(dirs[c])) && GoodNames(names, identities)
    requires Grouped(grouped, listing, names, identities)
    ensures r.Ok? ==> Planned(r.value, dirs, listing, names, identities)
    ensures r.Err? ==> r.error.Conflict?
    ensures r.Err? ==>
      var sources := SourcesOf(dirs, listing, r.error.target, names, identities);
      (forall s :: s in sources ==> s in dirs) && !Compatible(TreesOf(dirs, sources))
  {
    hide Place, Compatible, MovedTo, GoodNames, SourcesOf, Lists, NoRepeats;
    var g := grouped;
    var i := 0;
    while i < |g.order|
      invariant 0 <= i <= |g.order| && g.order == grouped.order && g.sources.Keys == grouped.sources.Keys
      invariant forall t :: t in g.order[..i] ==> Settled(dirs, g.sources[t], SourcesOf(dirs, listing, t, names, identities))
      invariant forall t :: t in g.sources && t !in g.order[..i] ==> g.sources[t] == grouped.sources[t]
    {
      var target := g.order[i];
      assert target in g.order && g.order[..i + 1] == g.order[..i] + [target];
      Fresh(g.order, i);
      var sources := (if target in dirs then [target] else []) + g.sources[target];
      assert sources == SourcesOf(dirs, listing, target, names, identities) by { SourcesAre(dirs, listing, target, names, identities); }
      SourcesHold(dirs, listing, target, names, identities);
      TreesAreWellFormed(dirs, sources);
      var compatible := CheckSources(TreesOf(dirs, sources));
      if !compatible { return Err(Conflict(target)); }
      g := g.(sources := g.sources[target := sources]);
      i := i + 1;
    }
    assert g.order[..i] == g.order;
    r := Ok(g);
  }

  ghost predicate Settled(dirs: map<string, Tree>, sources: seq<string>, expected: seq<string>) {
    sources == expected && (forall s :: s in sources ==> s in dirs) && Compatible(TreesOf(dirs, sources))
  }

  lemma SourcesAre(dirs: map<string, Tree>, listing: seq<string>, t: string, names: map<string, string>, identities: set<string>)
    ensures SourcesOf(dirs, listing, t, names, identities)
      == (if t in dirs then [t] else []) + MovedTo(listing, t, names, identities)
  {
  }

  lemma TreesAreWellFormed(dirs: map<string, Tree>, sources: seq<string>)
    requires (forall c :: c in dirs ==> WellFormed(dirs[c])) && forall s :: s in sources ==> s in dirs
    ensures forall t :: t in TreesOf(dirs, sources) ==> WellFormed(t)
  {
  }

  // ---------------------------------------------------------------------------
  // The plan in terms of the catalogue

  ghost predicate HasName(p: Project, n: string) { n == p.name || n in p.legacy }

  // All of the scope, or what stands before a "__".
  ghost predicate Begins(scope: string, n: string) { scope == n || (|n| + 2 <= |scope| && scope[..|n| + 2] == n + "__") }

  // The directory is `user`'s under name n of project i, and no other name claims it.
  ghost predicate Claims(catalog: seq<Project>, child: string, user: string, i: nat, n: string, rest: string) {
    && i < |catalog| && HasName(catalog[i], n) && IsUuid(user) && (rest == "" || StartsWith(rest, "__"))
    && child == user + "__" + n + rest
    && forall j, m :: 0 <= j < |catalog| && HasName(catalog[j], m) && Begins(n + rest, m) ==> m == n
  }

  // It belongs to exactly the group of that target.
  ghost predicate InGroup(g: Groups, child: string, target: string) {
    && target in g.sources && child in g.sources[target]
    && forall t :: t in g.sources && child in g.sources[t] ==> t == target
  }

  // Every claimed directory goes to the same user's directory of the project's identity, and
  // besides targets that exist nothing else is in a group.
  ghost predicate ByCatalog(g: Groups, dirs: map<string, Tree>, catalog: seq<Project>) {
    && (forall child, user, i: nat, n, rest :: child in dirs && Claims(catalog, child, user, i, n, rest) ==>
          InGroup(g, child, user + "__" + catalog[i].id + rest))
    && (forall t, child :: t in g.sources && child in g.sources[t] ==>
          child == t || exists user, i: nat, n, rest ::
            Claims(catalog, child, user, i, n, rest) && t == user + "__" + catalog[i].id + rest)
  }

  lemma ClaimsRead(catalog: seq<Project>, names: map<string, string>, child: string, user: string, i: nat, n: string, rest: string)
    requires Maps(names, catalog) && i < |catalog| && HasName(catalog[i], n)
    ensures n in names && names[n] == catalog[i].id
    ensures Claims(catalog, child, user, i, n, rest) <==> Reads(child, user, n, rest, names) && OnlyName(user, n, rest, names)
  {
    assert n in NamesOf(catalog[i]);
    forall m
      ensures m in names <==> exists j :: 0 <= j < |catalog| && HasName(catalog[j], m)
    {
      assert forall j :: 0 <= j < |catalog| ==> (HasName(catalog[j], m) <==> m in NamesOf(catalog[j]));
    }
    hide Maps, NamesOf;
    var scope := n + rest;
    if Claims(catalog, child, user, i, n, rest) {
      forall m | m in Owners(names, scope)
        ensures m == n
      {
        var j :| 0 <= j < |catalog| && HasName(catalog[j], m);
        assert Begins(n + rest, m);
      }
      SoleOwner(names, user, n, rest);
    }
    if Reads(child, user, n, rest, names) && OnlyName(user, n, rest, names) {
      SoleOwner(names, user, n, rest);
      forall j, m | 0 <= j < |catalog| && HasName(catalog[j], m) && Begins(scope, m)
        ensures m == n
      {
        assert m in names;
        assert m in Owners(names, scope);
      }
    }
  }

  lemma SoleOwner(names: map<string, string>, user: string, n: string, rest: string)
    requires IsUuid(user)
    ensures OnlyName(user, n, rest, names) <==> forall m :: m in Owners(names, n + rest) ==> m == n
  {
    var child := user + "__" + n + rest;
    assert child == user + "__" + (n + rest);
    forall m | m in Owners(names, n + rest) && OnlyName(user, n, rest, names)
      ensures m == n
    {
      OwnersRead(user, n + rest, names, m);
      var more :| Reads(child, user, m, more, names);
    }
    forall m, more | Reads(child, user, m, more, names)
      ensures m in Owners(names, n + rest)
    {
      OwnersRead(user, n + rest, names, m);
    }
  }

  lemma PlannedByCatalog(g: Groups, dirs: map<string, Tree>, listing: seq<string>, catalog: seq<Project>, names: map<string, string>)
    requires Planned(g, dirs, listing, names, Identities(catalog)) && Lists(listing, dirs)
    requires ValidCatalog(catalog) && Maps(names, catalog)
    ensures ByCatalog(g, dirs, catalog)
  {
    hide ValidCatalog, Planned, Maps, Lists, Identities, InGroup;
    forall child, user, i: nat, n, rest | child in dirs && Claims(catalog, child, user, i, n, rest)
      ensures InGroup(g, child, user + "__" + catalog[i].id + rest)
    {
      ClaimedIsInGroup(g, dirs, listing, catalog, names, child, user, i, n, rest);
    }
    forall t, child | t in g.sources && child in g.sources[t] && child != t
      ensures exists user, i: nat, n, rest :: Claims(catalog, child, user, i, n, rest) && t == user + "__" + catalog[i].id + rest
    {
      var user, i, n, rest := SourceIsClaimed(g, dirs, listing, catalog, names, t, child);
    }
  }

  lemma ClaimedIsInGroup(g: Groups, dirs: map<string, Tree>, listing: seq<string>, catalog: seq<Project>, names: map<string, string>,
                         child: string, user: string, i: nat, n: string, rest: string)
    requires Planned(g, dirs, listing, names, Identities(catalog)) && Lists(listing, dirs)
    requires ValidCatalog(catalog) && Maps(names, catalog) && child in dirs && Claims(catalog, child, user, i, n, rest)
    ensures InGroup(g, child, user + "__" + catalog[i].id + rest)
  {
    NamesAreGood(names, catalog);
    ClaimsRead(catalog, names, child, user, i, n, rest);
    hide ValidCatalog, Maps, Planned, Lists, Place, GoodNames, InGroup, Identities;
    MovesToItsProject(user, n, rest, names, Identities(catalog));
    MovedIsInGroup(g, dirs, listing, names, Identities(catalog), child);
  }

  lemma SourceIsClaimed(g: Groups, dirs: map<string, Tree>, listing: seq<string>, catalog: seq<Project>, names: map<string, string>,
                        t: string, child: string) returns (user: string, i: nat, n: string, rest: string)
    requires Planned(g, dirs, listing, names, Identities(catalog)) && Lists(listing, dirs)
    requires ValidCatalog(catalog) && Maps(names, catalog) && t in g.sources && child in g.sources[t] && child != t
    ensures Claims(catalog, child, user, i, n, rest) && t == user + "__" + catalog[i].id + rest
  {
    NamesAreGood(names, catalog);
    SourcesHold(dirs, listing, t, names, Identities(catalog));
    hide ValidCatalog, Planned, Lists, GoodNames, Identities, MovedTo, SourcesOf;
    user, n, rest := MovedReads(child, names, Identities(catalog));
    i :| i < |catalog| && n in NamesOf(catalog[i]);
    ClaimsRead(catalog, names, child, user, i, n, rest);
  }

  lemma MovedIsInGroup(g: Groups, dirs: map<string, Tree>, listing: seq<string>, names: map<string, string>, identities: set<string>, child: string)
    requires Planned(g, dirs, listing, names, identities) && Lists(listing, dirs) && GoodNames(names, identities)
    requires child in dirs && Place(child, names, identities).Move?
    ensures InGroup(g, child, Place(child, names, identities).target)
  {
    hide Place, NoRepeats, Compatible, GoodNames;
    var target := Place(child, names, identities).target;
    MovedToHolds(listing, target, names, identities);
    hide MovedTo;
    assert child in SourcesOf(dirs, listing, target, names, identities);
    PlannedIsWell(g, dirs, listing, names, identities);
  }

  // All directories of a group, and its target, are the same user's.
  lemma OneUserEach(g: Groups, dirs: map<string, Tree>, catalog: seq<Project>, t: string, child: string)
    requires ByCatalog(g, dirs, catalog) && t in g.sources && child in g.sources[t] && child != t
    ensures |t| >= 38 && |child| >= 38 && IsUuid(t[..36]) && child[..38] == t[..38]
  {
    hide IsUuid;
    var user, i: nat, n, rest :| Claims(catalog, child, user, i, n, rest) && t == user + "__" + catalog[i].id + rest;
    assert |user| == 36 by { UuidLength(user); }
    assert child == user + "__" + (n + rest) && t == user + "__" + (catalog[i].id + rest);
    assert child[..38] == user + "__" && t[..38] == user + "__" && t[..36] == user;
  }

  lemma UuidLength(s: string)
    requires IsUuid(s)
    ensures |s| == 36
  {
  }

  // The plan for a directory of snippets, or why there is none; nothing is written.
  method Plan(dirs: map<string, Tree>, listing: seq<string>, catalog: seq<Project>, unfinished: bool)
      returns (r: Result<Groups, PlanError>, ghost names: map<string, string>)
    requires Lists(listing, dirs) && forall c :: c in dirs ==> WellFormed(dirs[c])
    ensures r.Ok? ==>
      && WellPlanned(r.value, dirs) && Planned(r.value, dirs, listing, names, Identities(catalog))
      && (forall c :: c in dirs ==> Placed(c, names, Identities(catalog)))
      && ByCatalog(r.value, dirs, catalog)
    ensures r == Err(Unfinished) <==> unfinished
    ensures r == Err(BadCatalog) <==> !unfinished && !ValidCatalog(catalog)
    ensures !unfinished && ValidCatalog(catalog) ==> Maps(names, catalog)
    ensures r.Err? && r.error.CannotPlace? ==> r.error.child in dirs && !Placed(r.error.child, names, Identities(catalog))
    ensures r.Err? && r.error.Conflict? ==>
      var sources := SourcesOf(dirs, listing, r.error.target, names, Identities(catalog));
      (forall s :: s in sources ==> s in dirs) && !Compatible(TreesOf(dirs, sources))
  {
    hide Placed, ValidCatalog, Maps, Compatible, NoRepeats, GoodNames, SourcesOf, Planned, WellPlanned, Grouped;
    names := map[];
    if unfinished { return Err(Unfinished), names; }
    var mapped := Mapping(catalog);
    if mapped.None? { return Err(BadCatalog), names; }
    names := mapped.value;
    var grouped := Group(listing, mapped.value, Identities(catalog));
    if grouped.Err? { return grouped, names; }
    r := CheckGroups(grouped.value, dirs, listing, names, Identities(catalog));
    hide ByCatalog;
    if r.Ok? {
      PlannedIsWell(r.value, dirs, listing, names, Identities(catalog));
      PlannedByCatalog(r.value, dirs, listing, catalog, names);
    }
  }

  lemma Fresh(s: seq<string>, i: nat)
    requires NoRepeats(s) && i < |s|
    ensures s[i] !in s[..i]
  {
  }
}
