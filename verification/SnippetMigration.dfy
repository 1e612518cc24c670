// Moving the snippet directories, and rolling back.  Every state that a crash could leave
// behind is recorded in `trail`.
module SnippetMigration {
  import opened Prelude
  import opened SnippetPlan
  import opened SnippetTrees
  import opened SnippetPlanner

  // Digests are injective and stand for the trees they digest.
  datatype Manifest = Manifest(groups: Groups, backups: map<string, Tree>)

  datatype Journal = Journal(backup: map<string, Tree>, stage: map<string, Tree>, moved: map<string, Tree>,
                             manifest: Option<Manifest>)

  datatype Disk = Disk(dirs: map<string, Tree>, journal: Option<Journal>)

  function Sources(g: Groups): set<string> {
    set t, s | t in g.sources && s in g.sources[t] :: s
  }

  // The originals of the directories that a migration moves.
  function Originals(dirs: map<string, Tree>, g: Groups): map<string, Tree> {
    map s | s in dirs && s in Sources(g) :: dirs[s]
  }

  ghost predicate CoveredBy(g: Groups, dirs: map<string, Tree>) {
    forall t, s :: t in g.sources && s in g.sources[t] ==> s in dirs
  }

  // The union that a target receives.
  function UnionFor(dirs: map<string, Tree>, g: Groups, t: string): Tree
    requires t in g.sources && forall s :: s in g.sources[t] ==> s in dirs
  {
    MergeAll(TreesOf(dirs, g.sources[t]))
  }

  ghost function Unions(dirs: map<string, Tree>, g: Groups, targets: set<string>): map<string, Tree>
    requires CoveredBy(g, dirs) && targets <= g.sources.Keys
  {
    map t | t in targets :: UnionFor(dirs, g, t)
  }

  // Sources are gone, each target holds the union of its sources, and the rest is as it was.
  ghost function Migrated(dirs: map<string, Tree>, g: Groups): map<string, Tree>
    requires CoveredBy(g, dirs)
  {
    (dirs - Sources(g)) + Unions(dirs, g, g.sources.Keys)
  }

  // While a manifest is durable, its backups and the directories outside the groups are
  // enough to bring the originals back; a target that was not there has left the stage.
  ghost predicate Restorable(d: Disk, before: map<string, Tree>, g: Groups) {
    && d.journal.Some? && d.journal.value.manifest == Some(Manifest(g, Originals(before, g)))
    && d.journal.value.backup == Originals(before, g)
    && (forall n :: n !in Sources(g) && n !in g.sources ==> ((n in d.dirs <==> n in before) && (n in before ==> d.dirs[n] == before[n])))
    && (forall t :: t in g.sources && t !in Sources(g) && t in d.dirs ==> t !in d.journal.value.stage)
  }

  // Every state of a migration or rollback, crashed or not.
  ghost predicate Guarded(d: Disk, before: map<string, Tree>, g: Groups) {
    if d.journal.Some? && d.journal.value.manifest.Some? then Restorable(d, before, g)
    else d.dirs == before || (d.journal.None? && CoveredBy(g, before) && d.dirs == Migrated(before, g))
  }

  ghost predicate AllGuarded(trail: seq<Disk>, from: nat, before: map<string, Tree>, g: Groups) {
    forall k :: from <= k < |trail| ==> Guarded(trail[k], before, g)
  }

  lemma SourcesAreThere(g: Groups, before: map<string, Tree>)
    requires WellPlanned(g, before)
    ensures CoveredBy(g, before) && Sources(g) <= before.Keys
    ensures forall t :: t in g.sources && t !in Sources(g) ==> t !in before
    ensures Originals(before, g).Keys == Sources(g)
  {
  }

  // The name of a project's snippets: a user's identity, "__", and a scope with no slash.
  predicate ValidNamespace(name: string) {
    var i := Separator(name);
    i < |name| && IsUuid(name[..i]) && name[i + 2..] != "" && '/' !in name && '\\' !in name
  }

  // The sources in the order in which the groups name them.
  function AllSources(g: Groups, order: seq<string>): seq<string>
    requires forall t :: t in order ==> t in g.sources
  {
    if order == [] then [] else AllSources(g, order[..|order| - 1]) + g.sources[order[|order| - 1]]
  }

  lemma {:induction false} AllSourcesHold(g: Groups, order: seq<string>)
    requires forall t :: t in order ==> t in g.sources
    ensures forall s :: s in AllSources(g, order) <==> exists t :: t in order && s in g.sources[t]
  {
    if order != [] {
      var n := |order| - 1;
      AllSourcesHold(g, order[..n]);
      assert forall t :: t in order <==> t in order[..n] || t == order[n];
    }
  }

  predicate Accepted(g: Groups) {
    && (forall s :: s in Sources(g) ==> ValidNamespace(s))
    && (forall t :: t in g.sources ==> ValidNamespace(t))
  }

  lemma BackupsCover(g: Groups, before: map<string, Tree>)
    requires WellPlanned(g, before)
    ensures forall s :: s in AllSources(g, g.order) <==> s in Sources(g)
  {
    hide NoRepeats, Compatible;
    AllSourcesHold(g, g.order);
  }

  // Changing one of a group's directories keeps what a rollback needs.
  lemma StaysRestorable(d: Disk, d': Disk, n: string, before: map<string, Tree>, g: Groups)
    requires Restorable(d, before, g) && d'.journal == d.journal && d'.dirs - {n} == d.dirs - {n}
    requires n in Sources(g) || (n in g.sources && (n in d'.dirs ==> n !in d.journal.value.stage))
    ensures Restorable(d', before, g)
  {
    hide Originals, Sources;
    forall m | m != n
      ensures m in d'.dirs <==> m in d.dirs
      ensures m in d.dirs ==> d'.dirs[m] == d.dirs[m]
    {
      assert m in d'.dirs - {n} <==> m in d.dirs - {n};
      if m in d.dirs { assert (d'.dirs - {n})[m] == (d.dirs - {n})[m]; }
    }
  }

  // When every new target is gone and every source is back, the originals are back.
  lemma AllBack(d: Disk, before: map<string, Tree>, g: Groups)
    requires Restorable(d, before, g) && WellPlanned(g, before)
    requires forall t :: t in g.sources && t !in Sources(g) ==> t !in d.dirs
    requires forall s :: s in Sources(g) ==> s in d.dirs && s in before && d.dirs[s] == before[s]
    ensures d.dirs == before
  {
  }

  // ---------------------------------------------------------------------------
  // Rollback

  class Directory {
    var dirs: map<string, Tree>
    var journal: Option<Journal>
    var trail: seq<Disk>

    function Now(): Disk
      reads this
    {
      Disk(dirs, journal)
    }

    constructor (d: map<string, Tree>)
      ensures Now() == Disk(d, None) && trail == []
    {
      dirs, journal, trail := d, None, [];
    }

    // Removes a directory; a removal that fails or crashes leaves some part of it.
    method Remove(name: string, works: bool) returns (ok: bool)
      requires name in dirs
      modifies this`dirs, this`trail
      ensures ok == works && (ok ==> dirs == old(dirs) - {name})
      ensures old(trail) <= trail && |trail| > |old(trail)| && trail[|trail| - 1] == Now()
      ensures dirs - {name} == old(dirs) - {name}
      ensures forall k :: |old(trail)| <= k < |trail| ==> trail[k].journal == journal && trail[k].dirs - {name} == old(dirs) - {name}
    {
      var part: Tree := *;
      dirs := dirs[name := part];
      trail := trail + [Now()];
      if works {
        dirs := dirs - {name};
        trail := trail + [Now()];
      }
      ok := works;
    }

    // Copies a whole tree to a new directory; until it is done only a part is there.
    method CopyTree(from: Tree, name: string, works: bool) returns (ok: bool)
      modifies this`dirs, this`trail
      ensures ok == works && (ok ==> dirs == old(dirs)[name := from])
      ensures old(trail) <= trail && |trail| > |old(trail)| && trail[|trail| - 1] == Now()
      ensures dirs - {name} == old(dirs) - {name}
      ensures forall k :: |old(trail)| <= k < |trail| ==> trail[k].journal == journal && trail[k].dirs - {name} == old(dirs) - {name}
    {
      var part: Tree := *;
      dirs := dirs[name := part];
      trail := trail + [Now()];
      if works {
        dirs := dirs[name := from];
        trail := trail + [Now()];
      }
      ok := works;
    }

    method RemoveJournal(works: bool) returns (ok: bool)
      modifies this`journal, this`trail
      ensures ok == works && (ok ==> journal.None?) && (!ok ==> journal == old(journal))
      ensures trail == old(trail) + [Now()]
    {
      if works { journal := None; }
      trail := trail + [Now()];
      ok := works;
    }

    // The checks that precede any change.
    method JournalIsIntact(m: Manifest, backup: map<string, Tree>) returns (intact: bool)
      requires forall t :: t in m.groups.order <==> t in m.groups.sources
      ensures intact ==> Accepted(m.groups) && backup.Keys >= m.backups.Keys == Sources(m.groups)
      ensures Accepted(m.groups) && backup == m.backups && m.backups.Keys == Sources(m.groups) ==> intact
    {
      hide ValidNamespace, Sources;
      intact := false;
      if !(forall s :: s in m.backups ==> ValidNamespace(s) && s in backup && backup[s] == m.backups[s]) { return; }
      if Sources(m.groups) != m.backups.Keys { return; }
      if !(forall t :: t in m.groups.sources ==> ValidNamespace(t)) { return; }
      intact := true;
    }

    // Removes the targets that were put in place.
    method RemoveTargets(g: Groups, reliable: bool, ghost before: map<string, Tree>) returns (ok: bool)
      requires WellPlanned(g, before) && Restorable(Now(), before, g)
      modifies this`dirs, this`trail
      ensures old(trail) <= trail && AllGuarded(trail, |old(trail)|, before, g) && Restorable(Now(), before, g)
      ensures reliable ==> ok
      ensures ok ==> forall t :: t in g.sources && t !in Sources(g) ==> t !in dirs
    {
      hide NoRepeats, GoodGroup, Sources, Originals;
      ok := true;
      var i := 0;
      while i < |g.order|
        invariant 0 <= i <= |g.order| && ok
        invariant Restorable(Now(), before, g)
        invariant old(trail) <= trail && AllGuarded(trail, |old(trail)|, before, g)
        invariant forall t :: t in g.order[..i] && t !in Sources(g) ==> t !in dirs
      {
        var target := g.order[i];
        assert target in g.order && g.order[..i + 1] == g.order[..i] + [target];
        if target !in journal.value.stage && target in dirs {
          ghost var d, upTo := Now(), |trail|;
          var works := *;
          ok := Remove(target, reliable || works);
          KeptWhileRemoving(d, trail, upTo, Now(), target, before, g);
          if !ok { return; }
        }
        i := i + 1;
      }
      assert g.order[..i] == g.order;
    }

    // Copies every source back from its backup.
    method RestoreSources(g: Groups, reliable: bool, ghost before: map<string, Tree>) returns (ok: bool)
      requires WellPlanned(g, before) && Restorable(Now(), before, g)
      requires forall t :: t in g.sources && t !in Sources(g) ==> t !in dirs
      modifies this`dirs, this`trail
      ensures old(trail) <= trail && AllGuarded(trail, |old(trail)|, before, g) && Restorable(Now(), before, g)
      ensures reliable ==> ok
      ensures ok ==> dirs == before
    {
      hide WellPlanned, Sources, Originals, Restorable, Guarded;
      ok := true;
      assert forall t :: t in g.order ==> t in g.sources by { OrderIsSources(g, before); }
      var names := AllSources(g, g.order);
      BackupsCover(g, before);
      SourcesAreThere(g, before);
      BackupIsBefore(Now(), before, g);
      var i := 0;
      while i < |names|
        invariant 0 <= i <= |names| && ok && journal == old(journal)
        invariant Restorable(Now(), before, g)
        invariant old(trail) <= trail && AllGuarded(trail, |old(trail)|, before, g)
        invariant forall t :: t in g.sources && t !in Sources(g) ==> t !in dirs
        invariant forall n :: n in names[..i] ==> n in dirs && n in before && dirs[n] == before[n]
      {
        var name := names[i];
        assert name in names && names[..i + 1] == names[..i] + [name];
        ok := RestoreOne(name, journal.value.backup[name], g, reliable, before);
        if !ok { return; }
        i := i + 1;
      }
      assert names[..i] == names;
      AllBack(Now(), before, g);
    }

    method RestoreOne(name: string, backup: Tree, g: Groups, reliable: bool, ghost before: map<string, Tree>) returns (ok: bool)
      requires Restorable(Now(), before, g) && name in Sources(g)
      modifies this`dirs, this`trail
      ensures old(trail) <= trail && AllGuarded(trail, |old(trail)|, before, g) && Restorable(Now(), before, g)
      ensures reliable ==> ok
      ensures dirs - {name} == old(dirs) - {name}
      ensures ok ==> dirs == (old(dirs) - {name})[name := backup]
    {
      hide Restorable, Sources;
      var works := *;
      ok := true;
      ghost var d, upTo := Now(), |trail|;
      if name in dirs {
        ok := Remove(name, reliable || works);
        KeptWhileRemoving(d, trail, upTo, Now(), name, before, g);
        if !ok { return; }
      }
      works := *;
      ghost var e, from := Now(), |trail|;
      ok := CopyTree(backup, name, reliable || works);
      KeptWhileRemoving(e, trail, from, Now(), name, before, g);
      assert dirs - {name} == e.dirs - {name} == old(dirs) - {name};
      if ok { assert dirs == (dirs - {name})[name := backup]; }
    }

    // Explicit rollback, and the one that follows a failed migration.
    method Rollback(reliable: bool, ghost before: map<string, Tree>, ghost g: Groups) returns (ok: bool)
      requires WellPlanned(g, before) && Guarded(Now(), before, g)
      modifies this
      ensures old(trail) <= trail && AllGuarded(trail, |old(trail)|, before, g) && Guarded(Now(), before, g)
      ensures ok ==> Now() == Disk(before, None)
      ensures old(journal).None? ==> Now() == old(Now())
      ensures reliable ==>
        (ok <==> old(journal).Some? && (old(journal.value.manifest).Some? ==> Accepted(g)))
    {
      hide Sources, Originals, WellPlanned, Accepted;
      ok := false;
      if journal.None? { return; }
      var works := *;
      if journal.value.manifest.None? {
        ok := RemoveJournal(reliable || works);
        return;
      }
      var manifest := journal.value.manifest.value;
      assert manifest.groups == g;
      assert (forall t :: t in g.order <==> t in g.sources) by { OrderIsSources(g, before); }
      SourcesAreThere(g, before);
      var intact := JournalIsIntact(manifest, journal.value.backup);
      if !intact { return; }
      ok := RemoveTargets(manifest.groups, reliable, before);
      if !ok { return; }
      ok := RestoreSources(manifest.groups, reliable, before);
      if !ok { return; }
      works := *;
      ok := RemoveJournal(reliable || works);
    }

    // Copies every source twice into a new journal: as it is, and merged for its target.
    method CopySources(g: Groups, reliable: bool, ghost before: map<string, Tree>)
        returns (ok: bool, backup: map<string, Tree>, stage: map<string, Tree>)
      requires CoveredBy(g, before) && (forall t :: t in g.order <==> t in g.sources)
      requires dirs == before && journal.None?
      modifies this`journal, this`trail
      ensures old(trail) <= trail && AllUntouched(trail, |old(trail)|, before) && dirs == before
      ensures reliable ==> ok
      ensures !ok ==> journal.None? || journal.value.manifest.None?
      ensures ok ==>
        && journal == Some(Journal(backup, stage, map[], None))
        && Backed(backup, before, AllSources(g, g.order)) && Merged(stage, before, g, g.order)
    {
      hide Backed, Merged, AllSources, MergeAll, TreesOf;
      backup, stage := map[], map[];
      journal := Some(Journal(backup, stage, map[], None));
      trail := trail + [Now()];
      NothingStaged(before, g);
      var i := 0;
      while i < |g.order|
        invariant 0 <= i <= |g.order|
        invariant dirs == before && journal == Some(Journal(backup, stage, map[], None))
        invariant old(trail) <= trail && AllUntouched(trail, |old(trail)|, before)
        invariant Backed(backup, before, AllSources(g, g.order[..i])) && Merged(stage, before, g, g.order[..i])
      {
        var target := g.order[i];
        assert target in g.order && g.order[..i + 1] == g.order[..i] + [target];
        var staged, copied := StageGroup(g, target, backup, AllSources(g, g.order[..i]), before);
        StagedOneMore(g, g.order[..i], target, stage, staged, before);
        backup, stage := copied, stage[target := staged];
        journal := Some(Journal(backup, stage, map[], None));
        trail := trail + [Now()];
        var works := *;
        if !reliable && !works {
          ok := RemoveJournal(works);
          ok := false;
          return;
        }
        i := i + 1;
      }
      assert g.order[..i] == g.order;
      ok := true;
    }

    // Then makes the manifest durable and checks that no source changed meanwhile.
    method Stage(g: Groups, reliable: bool, ghost before: map<string, Tree>) returns (ok: bool)
      requires WellPlanned(g, before) && dirs == before && journal.None?
      modifies this`journal, this`trail
      ensures old(trail) <= trail && AllGuarded(trail, |old(trail)|, before, g) && Guarded(Now(), before, g)
      ensures dirs == before
      ensures reliable ==> ok
      ensures ok ==> Staged(Now(), before, g)
    {
      SourcesAreThere(g, before);
      OrderIsSources(g, before);
      hide WellPlanned, Sources, Originals, Backed, Merged, CoveredBy, AllSources, Guarded, Staged;
      var backup, stage;
      ok, backup, stage := CopySources(g, reliable, before);
      UntouchedAreGuarded(trail, |old(trail)|, Now(), before, g);
      if !ok { return; }
      StagedWhole(backup, stage, before, g);
      BackedIsSame(backup, before, AllSources(g, g.order));
      ok := SaveManifest(g, backup, stage, reliable, before);
    }

    method SaveManifest(g: Groups, backup: map<string, Tree>, stage: map<string, Tree>, reliable: bool, ghost before: map<string, Tree>)
        returns (ok: bool)
      requires dirs == before && journal == Some(Journal(backup, stage, map[], None))
      requires Staged(Disk(before, Some(Journal(backup, stage, map[], Some(Manifest(g, backup))))), before, g)
      requires forall s :: s in backup ==> s in before && before[s] == backup[s]
      modifies this`journal, this`trail
      ensures old(trail) <= trail && AllGuarded(trail, |old(trail)|, before, g) && Guarded(Now(), before, g)
      ensures dirs == before
      ensures reliable ==> ok
      ensures ok ==> Staged(Now(), before, g)
    {
      hide Staged, Guarded;
      var works := *;
      if reliable || works { journal := Some(Journal(backup, stage, map[], Some(Manifest(g, backup)))); }
      trail := trail + [Now()];
      StagedIsGuarded(Now(), before, g);
      var same := forall s :: s in backup ==> s in dirs && dirs[s] == backup[s];
      ok := (reliable || works) && same;
      if !ok {
        works := *;
        var _ := RemoveJournal(works);
        StagedIsGuarded(Now(), before, g);
      }
    }

    // Reads the sources of one target.
    method StageGroup(g: Groups, target: string, backup: map<string, Tree>, ghost done: seq<string>, ghost before: map<string, Tree>)
        returns (staged: Tree, copied: map<string, Tree>)
      requires CoveredBy(g, before) && dirs == before && target in g.sources && Backed(backup, before, done)
      ensures staged == MergeAll(TreesOf(before, g.sources[target]))
      ensures Backed(copied, before, done + g.sources[target])
    {
      var sources := g.sources[target];
      staged, copied := EMPTY, backup;
      var j := 0;
      while j < |sources|
        invariant 0 <= j <= |sources|
        invariant staged == MergeAll(TreesOf(before, sources)[..j])
        invariant Backed(copied, before, done + sources[..j])
      {
        var source := sources[j];
        assert source in sources && done + sources[..j + 1] == (done + sources[..j]) + [source];
        assert TreesOf(before, sources)[..j + 1][..j] == TreesOf(before, sources)[..j];
        copied := copied[source := dirs[source]];
        staged := Merge(staged, dirs[source]);
        j := j + 1;
      }
      assert TreesOf(before, sources)[..j] == TreesOf(before, sources) && sources[..j] == sources;
    }

    // Moves the sources of one target out of the way, one rename each.
    method MoveOut(g: Groups, i: nat, reliable: bool, ghost before: map<string, Tree>) returns (ok: bool)
      requires WellPlanned(g, before) && i < |g.order| && Moving(Now(), before, g, i, 0)
      modifies this
      ensures old(trail) <= trail && AllRestorable(trail, |old(trail)|, before, g) && Restorable(Now(), before, g)
      ensures reliable ==> ok
      ensures ok ==> Moving(Now(), before, g, i, |g.sources[g.order[i]]|)
    {
      hide WellPlanned, Moving, Restorable;
      assert g.order[i] in g.sources by { TargetOf(g, i, before); }
      var sources := g.sources[g.order[i]];
      ok := true;
      MovingIsRestorable(Now(), before, g, i, 0);
      var j := 0;
      while j < |sources|
        invariant 0 <= j <= |sources| && ok
        invariant Moving(Now(), before, g, i, j) && Restorable(Now(), before, g)
        invariant old(trail) <= trail && AllRestorable(trail, |old(trail)|, before, g)
      {
        var works, reached := *, *;
        SourceLeaves(Now(), before, g, i, j);
        if reliable || works || reached {
          var source := sources[j];
          journal := Some(journal.value.(moved := journal.value.moved[source := dirs[source]]));
          dirs := dirs - {source};
          MovingIsRestorable(Now(), before, g, i, j + 1);
        }
        trail := trail + [Now()];
        ok := reliable || works;
        if !ok { return; }
        j := j + 1;
      }
    }

    // Moves the sources away and the merged trees in, group by group.
    method MoveGroups(g: Groups, reliable: bool, ghost before: map<string, Tree>) returns (ok: bool)
      requires WellPlanned(g, before) && Staged(Now(), before, g)
      modifies this
      ensures old(trail) <= trail && AllRestorable(trail, |old(trail)|, before, g) && Restorable(Now(), before, g)
      ensures reliable ==> ok
      ensures ok ==> Moving(Now(), before, g, |g.order|, 0)
    {
      hide WellPlanned, Moving, Restorable;
      ok := true;
      NothingMoved(Now(), before, g);
      MovingIsRestorable(Now(), before, g, 0, 0);
      var i := 0;
      while i < |g.order|
        invariant 0 <= i <= |g.order| && ok
        invariant Moving(Now(), before, g, i, 0) && Restorable(Now(), before, g)
        invariant old(trail) <= trail && AllRestorable(trail, |old(trail)|, before, g)
      {
        ok := MoveOut(g, i, reliable, before);
        if !ok { return; }
        var works, reached := *, *;
        TargetArrives(Now(), before, g, i);
        if reliable || works || reached {
          var target := g.order[i];
          dirs := dirs[target := journal.value.stage[target]];
          journal := Some(journal.value.(stage := journal.value.stage - {target}));
          MovingIsRestorable(Now(), before, g, i + 1, 0);
        }
        trail := trail + [Now()];
        ok := reliable || works;
        if !ok { return; }
        i := i + 1;
      }
    }

    // Plans, and if told to applies the plan; a failure after the manifest is rolled back.
    method Migrate(listing: seq<string>, catalog: seq<Project>, apply: bool, reliable: bool)
        returns (r: Result<Groups, MigrateError>, ghost g: Groups)
      requires Lists(listing, dirs) && forall c :: c in dirs ==> WellFormed(dirs[c])
      modifies this
      ensures r.Err? && r.error.Refused? ==> Now() == old(Now()) && trail == old(trail)
      ensures r.Ok? ==> r.value == g
      ensures r.Ok? && !apply ==> Now() == old(Now()) && trail == old(trail)
      ensures r.Ok? && apply ==> WellPlanned(g, old(dirs)) && CoveredBy(g, old(dirs)) && Now() == Disk(Migrated(old(dirs), g), None)
      ensures !(r.Err? && r.error.Refused?) ==>
        && WellPlanned(g, old(dirs)) && old(trail) <= trail
        && AllGuarded(trail, |old(trail)|, old(dirs), g) && Guarded(Now(), old(dirs), g)
      ensures r.Err? && !r.error.Refused? ==> !reliable
    {
      hide WellPlanned, Guarded, Planned, Placed, Lists, Sources;
      var plan, names := Plan(dirs, listing, catalog, journal.Some?);
      g := Groups([], map[]);
      if plan.Err? { return Err(Refused(plan.error)), g; }
      g := plan.value;
      BeforeIsGuarded(Now(), dirs, g);
      if !apply { return Ok(plan.value), g; }
      if plan.value.order == [] {
        NothingToMigrate(dirs, g);
        return Ok(plan.value), g;
      }
      ghost var before := dirs;
      var ok := Stage(plan.value, reliable, before);
      if !ok { return Err(NotPrepared), g; }
      ok := Apply(plan.value, reliable, before);
      r := if ok then Ok(plan.value) else Err(NotApplied);
    }

    method Apply(g: Groups, reliable: bool, ghost before: map<string, Tree>) returns (ok: bool)
      requires WellPlanned(g, before) && Staged(Now(), before, g)
      modifies this
      ensures old(trail) <= trail && AllGuarded(trail, |old(trail)|, before, g) && Guarded(Now(), before, g)
      ensures reliable ==> ok
      ensures ok ==> CoveredBy(g, before) && Now() == Disk(Migrated(before, g), None)
    {
      hide WellPlanned, Guarded, Restorable, Moving, Sources, Staged;
      ok := MoveGroups(g, reliable, before);
      RestorableIsGuarded(trail, |old(trail)|, Now(), before, g);
      if !ok {
        var _ := Rollback(false, before, g);
        return;
      }
      MovedIsMigrated(Now(), before, g);
      var works := *;
      ok := RemoveJournal(reliable || works);
      if ok { DoneIsGuarded(Now(), before, g); }
    }

    // Power is lost: the directory is as after one of the recorded writes.
    method Crash(from: nat) returns (k: nat)
      requires from < |trail|
      modifies this`dirs, this`journal
      ensures from <= k < |trail| && Now() == trail[k]
    {
      k := *;
      if k < from || k >= |trail| { k := from; }
      dirs, journal := trail[k].dirs, trail[k].journal;
    }

    // A migration that loses power at any point, and whose rollback loses power or fails any
    // number of times: an undisturbed rollback of whatever journal is left brings back
    // exactly the original directories.
    method SurvivesCrashes(listing: seq<string>, catalog: seq<Project>, interruptions: nat) returns (ghost g: Groups)
      requires Lists(listing, dirs) && (forall c :: c in dirs ==> WellFormed(dirs[c])) && journal.None?
      modifies this
      ensures journal.None? ==> dirs == old(dirs) || (CoveredBy(g, old(dirs)) && dirs == Migrated(old(dirs), g))
      ensures journal.Some? ==> !Accepted(g)
    {
      hide Guarded, WellPlanned, Lists, Accepted;
      ghost var before := dirs;
      var begun := |trail|;
      var r;
      r, g := Migrate(listing, catalog, true, false);
      if r.Err? && r.error.Refused? { return; }
      if begun < |trail| { var _ := Crash(begun); }
      var n := 0;
      while n < interruptions
        invariant WellPlanned(g, before) && Guarded(Now(), before, g)
      {
        begun := |trail|;
        var _ := Rollback(false, before, g);
        if begun < |trail| { var _ := Crash(begun); }
        n := n + 1;
      }
      var ok := Rollback(true, before, g);
      if !ok { NoJournalNoHarm(Now(), before, g); }
    }
  }

  datatype MigrateError = Refused(PlanError) | NotPrepared | NotApplied

  lemma BeforeIsGuarded(d: Disk, before: map<string, Tree>, g: Groups)
    requires d.dirs == before && d.journal.None?
    ensures Guarded(d, before, g)
  {
  }

  lemma NothingToMigrate(before: map<string, Tree>, g: Groups)
    requires WellPlanned(g, before) && g.order == []
    ensures CoveredBy(g, before) && Migrated(before, g) == before
  {
  }

  lemma RestorableIsGuarded(trail: seq<Disk>, from: nat, now: Disk, before: map<string, Tree>, g: Groups)
    requires AllRestorable(trail, from, before, g) && Restorable(now, before, g)
    ensures AllGuarded(trail, from, before, g) && Guarded(now, before, g)
  {
  }

  lemma DoneIsGuarded(d: Disk, before: map<string, Tree>, g: Groups)
    requires CoveredBy(g, before) && d == Disk(Migrated(before, g), None)
    ensures Guarded(d, before, g)
  {
  }

  lemma NoJournalNoHarm(d: Disk, before: map<string, Tree>, g: Groups)
    requires Guarded(d, before, g)
    ensures d.journal.None? ==> d.dirs == before || (CoveredBy(g, before) && d.dirs == Migrated(before, g))
  {
  }

  ghost predicate Backed(backup: map<string, Tree>, before: map<string, Tree>, names: seq<string>) {
    && (forall s :: s in backup <==> s in names)
    && (forall s :: s in backup ==> s in before && backup[s] == before[s])
  }

  ghost predicate Merged(stage: map<string, Tree>, before: map<string, Tree>, g: Groups, targets: seq<string>)
    requires CoveredBy(g, before)
  {
    && (forall t :: t in stage <==> t in targets)
    && (forall t :: t in stage ==> t in g.sources && stage[t] == MergeAll(TreesOf(before, g.sources[t])))
  }

  // Everything is prepared and nothing has moved.
  ghost predicate Staged(d: Disk, before: map<string, Tree>, g: Groups) {
    && Restorable(d, before, g) && d.dirs == before && CoveredBy(g, before)
    && Merged(d.journal.value.stage, before, g, g.order)
  }

  ghost predicate AllUntouched(trail: seq<Disk>, from: nat, before: map<string, Tree>) {
    forall k :: from <= k < |trail| ==> trail[k].dirs == before && (trail[k].journal.Some? ==> trail[k].journal.value.manifest.None?)
  }

  lemma UntouchedAreGuarded(trail: seq<Disk>, from: nat, now: Disk, before: map<string, Tree>, g: Groups)
    requires AllUntouched(trail, from, before) && now.dirs == before
    requires now.journal.Some? ==> now.journal.value.manifest.None?
    ensures AllGuarded(trail, from, before, g) && Guarded(now, before, g)
  {
  }

  lemma StagedIsGuarded(d: Disk, before: map<string, Tree>, g: Groups)
    requires d.dirs == before
    requires Staged(d, before, g) || d.journal.None? || d.journal.value.manifest.None?
    ensures Guarded(d, before, g)
  {
  }

  lemma NothingStaged(before: map<string, Tree>, g: Groups)
    requires CoveredBy(g, before)
    ensures g.order[..0] == [] && Backed(map[], before, AllSources(g, [])) && Merged(map[], before, g, [])
  {
  }

  lemma StagedOneMore(g: Groups, targets: seq<string>, t: string, stage: map<string, Tree>, staged: Tree, before: map<string, Tree>)
    requires CoveredBy(g, before) && t in g.sources && Merged(stage, before, g, targets)
    requires forall u :: u in targets ==> u in g.sources
    requires staged == MergeAll(TreesOf(before, g.sources[t]))
    ensures AllSources(g, targets + [t]) == AllSources(g, targets) + g.sources[t]
    ensures Merged(stage[t := staged], before, g, targets + [t])
  {
    hide MergeAll, TreesOf;
    assert (targets + [t])[..|targets|] == targets;
  }

  lemma BackedIsSame(backup: map<string, Tree>, before: map<string, Tree>, names: seq<string>)
    requires Backed(backup, before, names)
    ensures forall s :: s in backup ==> s in before && before[s] == backup[s]
  {
  }

  lemma BackedIsOriginals(backup: map<string, Tree>, before: map<string, Tree>, g: Groups)
    requires WellPlanned(g, before) && (forall t :: t in g.order <==> t in g.sources)
    requires Backed(backup, before, AllSources(g, g.order))
    ensures backup == Originals(before, g)
  {
    SourcesAreThere(g, before);
    BackupsCover(g, before);
    hide WellPlanned, Sources, AllSources;
  }

  lemma StagedWhole(backup: map<string, Tree>, stage: map<string, Tree>, before: map<string, Tree>, g: Groups)
    requires WellPlanned(g, before) && CoveredBy(g, before)
    requires (forall t :: t in g.order <==> t in g.sources) && Backed(backup, before, AllSources(g, g.order))
    requires Merged(stage, before, g, g.order)
    ensures Staged(Disk(before, Some(Journal(backup, stage, map[], Some(Manifest(g, backup))))), before, g)
  {
    SourcesAreThere(g, before);
    BackedIsOriginals(backup, before, g);
    hide WellPlanned, Sources, Originals, Backed, Merged, AllSources, CoveredBy;
  }

  ghost predicate AllRestorable(trail: seq<Disk>, from: nat, before: map<string, Tree>, g: Groups) {
    forall k :: from <= k < |trail| ==> Restorable(trail[k], before, g)
  }

  // The targets of the first i groups.
  function DoneTargets(g: Groups, i: nat): set<string>
    requires i <= |g.order|
  {
    set t | t in g.order[..i]
  }

  // The sources of the first i groups, and the first j of the next one.
  function GoneSources(g: Groups, i: nat, j: nat): set<string>
    requires i <= |g.order| && (forall t :: t in g.order ==> t in g.sources)
    requires i < |g.order| ==> j <= |g.sources[g.order[i]]|
  {
    (set s | s in AllSources(g, g.order[..i])) + if i < |g.order| then set s | s in g.sources[g.order[i]][..j] else {}
  }

  ghost predicate At(g: Groups, i: nat, j: nat) {
    && i <= |g.order| && (i == |g.order| ==> j == 0) && (forall t :: t in g.order <==> t in g.sources)
    && (i < |g.order| ==> j <= |g.sources[g.order[i]]|)
  }

  // i groups have moved, and j sources of the next.
  ghost predicate Moving(d: Disk, before: map<string, Tree>, g: Groups, i: nat, j: nat) {
    && At(g, i, j) && CoveredBy(g, before)
    && d.journal.Some? && d.journal.value.manifest == Some(Manifest(g, Originals(before, g)))
    && d.journal.value.backup == Originals(before, g)
    && d.dirs == (before - GoneSources(g, i, j)) + Unions(before, g, DoneTargets(g, i))
    && d.journal.value.stage == Unions(before, g, g.sources.Keys - DoneTargets(g, i))
  }

  lemma TargetOf(g: Groups, i: nat, before: map<string, Tree>)
    requires WellPlanned(g, before) && i < |g.order|
    ensures g.order[i] in g.sources && g.order[i] in g.order
  {
  }

  lemma MergedIsUnions(stage: map<string, Tree>, before: map<string, Tree>, g: Groups)
    requires CoveredBy(g, before) && (forall t :: t in g.order <==> t in g.sources) && Merged(stage, before, g, g.order)
    ensures stage == Unions(before, g, g.sources.Keys)
  {
  }

  lemma NothingGone(before: map<string, Tree>, g: Groups)
    requires At(g, 0, 0) && CoveredBy(g, before)
    ensures GoneSources(g, 0, 0) == {} && DoneTargets(g, 0) == {}
    ensures (before - GoneSources(g, 0, 0)) + Unions(before, g, DoneTargets(g, 0)) == before
  {
  }

  lemma NothingMoved(d: Disk, before: map<string, Tree>, g: Groups)
    requires WellPlanned(g, before) && Staged(d, before, g)
    ensures Moving(d, before, g, 0, 0)
  {
    OrderIsSources(g, before);
    MergedIsUnions(d.journal.value.stage, before, g);
    NothingGone(before, g);
    hide WellPlanned, Originals, Unions, GoneSources, DoneTargets, Merged, CoveredBy;
    assert g.sources.Keys - {} == g.sources.Keys;
  }

  lemma OnlySourcesGo(g: Groups, i: nat, j: nat)
    requires At(g, i, j)
    ensures GoneSources(g, i, j) <= Sources(g) && DoneTargets(g, i) <= g.sources.Keys
  {
    AllSourcesHold(g, g.order[..i]);
    assert forall t :: t in g.order[..i] ==> t in g.order;
    forall s | s in GoneSources(g, i, j)
      ensures s in Sources(g)
    {
      if i < |g.order| && s in g.sources[g.order[i]][..j] {
        assert g.order[i] in g.order && s in g.sources[g.order[i]];
      } else {
        var t :| t in g.order[..i] && s in g.sources[t];
        assert t in g.sources;
      }
    }
  }


  lemma RestorableFrom(d: Disk, before: map<string, Tree>, g: Groups, gone: set<string>, done: map<string, Tree>)
    requires d.journal.Some? && d.journal.value.manifest == Some(Manifest(g, Originals(before, g)))
    requires d.journal.value.backup == Originals(before, g)
    requires d.dirs == (before - gone) + done && d.journal.value.stage.Keys !! done.Keys
    requires gone <= Sources(g) && done.Keys <= g.sources.Keys
    requires forall t :: t in g.sources && t !in Sources(g) ==> t !in before
    ensures Restorable(d, before, g)
  {
  }

  lemma MovingIsRestorable(d: Disk, before: map<string, Tree>, g: Groups, i: nat, j: nat)
    requires WellPlanned(g, before) && Moving(d, before, g, i, j)
    ensures Restorable(d, before, g)
  {
    SourcesAreThere(g, before);
    OnlySourcesGo(g, i, j);
    UnionKeys(before, g, DoneTargets(g, i));
    UnionKeys(before, g, g.sources.Keys - DoneTargets(g, i));
    hide Originals, WellPlanned, Sources, GoneSources, DoneTargets, CoveredBy, At, Unions, Restorable;
    RestorableFrom(d, before, g, GoneSources(g, i, j), Unions(before, g, DoneTargets(g, i)));
  }

  lemma UnionKeys(before: map<string, Tree>, g: Groups, targets: set<string>)
    requires CoveredBy(g, before) && targets <= g.sources.Keys
    ensures Unions(before, g, targets).Keys == targets
  {
  }

  // The next source is still in place: no earlier group wanted it or put it there.
  lemma SourceIsThere(g: Groups, i: nat, j: nat, before: map<string, Tree>)
    requires WellPlanned(g, before) && i < |g.order| && g.order[i] in g.sources && j < |g.sources[g.order[i]]|
    ensures forall t :: t in g.order ==> t in g.sources
    ensures var s := g.sources[g.order[i]][j]; s in before && s !in DoneTargets(g, i) && s !in GoneSources(g, i, j)
    ensures GoneSources(g, i, j + 1) == GoneSources(g, i, j) + {g.sources[g.order[i]][j]}
  {
    var sources := g.sources[g.order[i]];
    var s := sources[j];
    assert GoodGroup(g.order[i], sources, before);
    hide Compatible;
    assert sources[..j + 1] == sources[..j] + [s];
    AllSourcesHold(g, g.order[..i]);
    forall t | t in g.order[..i]
      ensures t != g.order[i] && s != t && s !in g.sources[t]
    {
      Fresh(g.order, i);
    }
  }

  lemma SourceLeaves(d: Disk, before: map<string, Tree>, g: Groups, i: nat, j: nat)
    requires WellPlanned(g, before) && Moving(d, before, g, i, j) && i < |g.order| && j < |g.sources[g.order[i]]|
    ensures d.journal.Some? && g.sources[g.order[i]][j] in d.dirs
    ensures var s := g.sources[g.order[i]][j];
      forall moved :: Moving(Disk(d.dirs - {s}, Some(d.journal.value.(moved := moved))), before, g, i, j + 1)
  {
    var s := g.sources[g.order[i]][j];
    SourceIsThere(g, i, j, before);
    hide WellPlanned, Originals, UnionFor, DoneTargets, GoneSources;
    OneLess(before, GoneSources(g, i, j), Unions(before, g, DoneTargets(g, i)), s);
  }

  lemma OneLess(before: map<string, Tree>, gone: set<string>, done: map<string, Tree>, s: string)
    requires s in before && s !in gone && s !in done
    ensures s in (before - gone) + done
    ensures ((before - gone) + done) - {s} == (before - (gone + {s})) + done
  {
  }

  lemma TargetIsFree(g: Groups, i: nat, before: map<string, Tree>)
    requires WellPlanned(g, before) && i < |g.order| && g.order[i] in g.sources
    ensures At(g, i + 1, 0) && At(g, i, |g.sources[g.order[i]]|)
    ensures g.order[i] !in DoneTargets(g, i)
    ensures g.order[i] in before ==> g.order[i] in GoneSources(g, i, |g.sources[g.order[i]]|)
    ensures DoneTargets(g, i + 1) == DoneTargets(g, i) + {g.order[i]}
    ensures GoneSources(g, i + 1, 0) == GoneSources(g, i, |g.sources[g.order[i]]|)
  {
    var t := g.order[i];
    assert GoodGroup(t, g.sources[t], before);
    Fresh(g.order, i);
    assert g.order[..i + 1] == g.order[..i] + [t] && g.order[..i + 1][..i] == g.order[..i];
    assert g.sources[t][..|g.sources[t]|] == g.sources[t];
    AllSourcesHold(g, g.order[..i + 1]);
    AllSourcesHold(g, g.order[..i]);
  }

  lemma TargetArrives(d: Disk, before: map<string, Tree>, g: Groups, i: nat)
    requires WellPlanned(g, before) && i < |g.order| && g.order[i] in g.sources
    requires Moving(d, before, g, i, |g.sources[g.order[i]]|)
    ensures d.journal.Some? && g.order[i] in d.journal.value.stage && g.order[i] !in d.dirs
    ensures var t := g.order[i];
      Moving(Disk(d.dirs[t := d.journal.value.stage[t]], Some(d.journal.value.(stage := d.journal.value.stage - {t}))), before, g, i + 1, 0)
  {
    var t := g.order[i];
    var gone, done := GoneSources(g, i, |g.sources[t]|), DoneTargets(g, i);
    TargetIsFree(g, i, before);
    OnlySourcesGo(g, i, |g.sources[t]|);
    UnionKeys(before, g, done);
    hide WellPlanned, Originals, UnionFor, DoneTargets, GoneSources, Sources, CoveredBy, Unions, At;
    OneMore(before, g, done, t);
    Insert(before, gone, Unions(before, g, done), t, UnionFor(before, g, t));
  }

  lemma Insert(before: map<string, Tree>, gone: set<string>, done: map<string, Tree>, t: string, u: Tree)
    ensures ((before - gone) + done)[t := u] == (before - gone) + done[t := u]
    ensures t in gone && t !in done ==> t !in (before - gone) + done
    ensures t !in before && t !in done ==> t !in (before - gone) + done
  {
  }

  lemma OneMore(before: map<string, Tree>, g: Groups, done: set<string>, t: string)
    requires CoveredBy(g, before) && done <= g.sources.Keys && t in g.sources && t !in done
    ensures Unions(before, g, done + {t}) == Unions(before, g, done)[t := UnionFor(before, g, t)]
    ensures Unions(before, g, g.sources.Keys - (done + {t})) == Unions(before, g, g.sources.Keys - done) - {t}
    ensures Unions(before, g, g.sources.Keys - done)[t] == UnionFor(before, g, t)
  {
  }

  // All groups moved is the migration done.
  lemma MovedIsMigrated(d: Disk, before: map<string, Tree>, g: Groups)
    requires WellPlanned(g, before) && Moving(d, before, g, |g.order|, 0)
    ensures CoveredBy(g, before) && d.dirs == Migrated(before, g)
  {
    assert g.order[..|g.order|] == g.order;
    BackupsCover(g, before);
    hide WellPlanned, Sources, AllSources, Unions, Originals;
    assert GoneSources(g, |g.order|, 0) == Sources(g) && DoneTargets(g, |g.order|) == g.sources.Keys;
  }

  lemma OrderIsSources(g: Groups, before: map<string, Tree>)
    requires WellPlanned(g, before)
    ensures forall t :: t in g.order <==> t in g.sources
  {
  }

  lemma BackupIsBefore(d: Disk, before: map<string, Tree>, g: Groups)
    requires Restorable(d, before, g)
    ensures d.journal.Some?
    ensures forall s :: s in d.journal.value.backup ==> s in before && d.journal.value.backup[s] == before[s]
    ensures d.journal.value.backup.Keys == Originals(before, g).Keys
  {
  }

  // Every state inside the removal or the copy of one directory can be rolled back.
  lemma KeptWhileRemoving(d: Disk, trail: seq<Disk>, from: nat, now: Disk, n: string, before: map<string, Tree>, g: Groups)
    requires Restorable(d, before, g) && (n in Sources(g) || (n in g.sources && n !in d.journal.value.stage))
    requires forall k :: from <= k < |trail| ==> trail[k].journal == d.journal && trail[k].dirs - {n} == d.dirs - {n}
    requires now.journal == d.journal && now.dirs - {n} == d.dirs - {n}
    ensures AllGuarded(trail, from, before, g) && Restorable(now, before, g)
  {
    StaysRestorable(d, now, n, before, g);
    forall k | from <= k < |trail|
      ensures Guarded(trail[k], before, g)
    {
      StaysRestorable(d, trail[k], n, before, g);
    }
  }

  // ---------------------------------------------------------------------------
  // What a migration leaves

  // Nothing is lost: each target holds exactly the union of its sources, sources that are
  // not targets are gone, and no other directory changed.
  lemma MigrationLosesNothing(before: map<string, Tree>, g: Groups)
    requires WellPlanned(g, before)
    ensures CoveredBy(g, before)
    ensures forall t :: t in g.sources ==>
      t in Migrated(before, g) && IsUnion(Migrated(before, g)[t], TreesOf(before, g.sources[t]))
    ensures forall s :: s in Sources(g) && s !in g.sources ==> s !in Migrated(before, g)
    ensures forall n :: n !in Sources(g) && n !in g.sources ==>
      (n in Migrated(before, g) <==> n in before) && (n in before ==> Migrated(before, g)[n] == before[n])
  {
    SourcesAreThere(g, before);
    forall t | t in g.sources
      ensures Migrated(before, g)[t] == UnionFor(before, g, t) && IsUnion(UnionFor(before, g, t), TreesOf(before, g.sources[t]))
    {
      assert GoodGroup(t, g.sources[t], before);
      MergeIsUnion(TreesOf(before, g.sources[t]));
    }
    hide WellPlanned, UnionFor, Sources, IsUnion, TreesOf;
  }

  // ---------------------------------------------------------------------------
  // Which names a rollback accepts

  predicate HasBackslash(name: string) { '\\' in name }

  lemma TargetNamespace(user: string, id: string, rest: string)
    requires IsUuid(user) && IsUuid(id) && (rest == "" || StartsWith(rest, "__")) && '/' !in rest
    ensures ValidNamespace(user + "__" + id + rest) <==> !HasBackslash(rest)
    ensures HasBackslash(user + "__" + id + rest) <==> HasBackslash(rest)
  {
    var target := user + "__" + id + rest;
    UuidHasNoUnderscore(user);
    FirstSeparator(user, "__" + (id + rest));
    assert target == user + ("__" + (id + rest));
    assert target[38..] == id + rest;
    assert forall c :: c in target <==> c in user || c in "__" || c in id || c in rest;
    NoSlashInUuid(user);
    NoSlashInUuid(id);
  }

  // The names that rollback accepts: a user's identifier, a separator and a scope, in one path
  // component of any system.
  lemma ValidNamespaceIff(name: string)
    ensures ValidNamespace(name) <==>
      '/' !in name && '\\' !in name && exists user, scope :: IsUuid(user) && scope != "" && name == user + "__" + scope
  {
    var i := Separator(name);
    if ValidNamespace(name) { AroundSeparator(name, i); }
    forall user, scope | IsUuid(user) && scope != "" && name == user + "__" + scope
      ensures i < |name| && name[..i] == user && name[i + 2..] == scope
    {
      SplitAtUser(name, user, scope);
    }
  }

  lemma NoSlashInUuid(s: string)
    requires IsUuid(s)
    ensures '/' !in s && '\\' !in s
  {
  }

  lemma AroundSeparator(s: string, i: nat)
    requires SeparatorAt(s, i)
    ensures s == s[..i] + "__" + s[i + 2..]
  {
    var mid := s[i..i + 2];
    assert mid == [s[i], s[i + 1]] == "__";
    assert s == s[..i] + mid + s[i + 2..];
  }

  lemma SlashesAreInRest(user: string, n: string, rest: string)
    requires IsUuid(user) && IsTechnicalName(n)
    ensures '/' in user + "__" + n + rest <==> '/' in rest
    ensures HasBackslash(user + "__" + n + rest) <==> HasBackslash(rest)
  {
  }

  // A directory that moves, and where it moves to, pass or fail together.
  lemma MovedNamespaces(child: string, names: map<string, string>, identities: set<string>)
    requires GoodNames(names, identities) && Place(child, names, identities).Move? && '/' !in child
    ensures ValidNamespace(child) <==> !HasBackslash(child)
    ensures HasBackslash(Place(child, names, identities).target) <==> HasBackslash(child)
    ensures ValidNamespace(Place(child, names, identities).target) <==> !HasBackslash(child)
  {
    var i := Separator(child);
    var user, scope := child[..i], child[i + 2..];
    var n := Sole(Owners(names, scope));
    assert n in Owners(names, scope) && IsTechnicalName(n);
    RestOfScope(scope, n);
    var rest := scope[|n|..];
    hide IsUuid, IsTechnicalName, Owners;
    AroundSeparator(child, i);
    assert user + "__" + n + rest == user + "__" + (n + rest);
    SlashesAreInRest(user, n, rest);
    TargetNamespace(user, names[n], rest);
  }

  // A group's names all pass, or some source of it has a backslash.
  ghost predicate NamesAgree(target: string, sources: seq<string>) {
    && (forall s :: s in sources ==> (ValidNamespace(s) <==> !HasBackslash(s)))
    && ((forall s :: s in sources ==> !HasBackslash(s)) ==> ValidNamespace(target))
  }

  lemma GroupNames(t: string, dirs: map<string, Tree>, listing: seq<string>, names: map<string, string>, identities: set<string>)
    requires Lists(listing, dirs) && GoodNames(names, identities) && MovedTo(listing, t, names, identities) != []
    requires forall c :: c in dirs ==> '/' !in c
    ensures NamesAgree(t, SourcesOf(dirs, listing, t, names, identities))
  {
    hide Place, GoodNames, ValidNamespace, HasBackslash, NoRepeats;
    var sources := SourcesOf(dirs, listing, t, names, identities);
    SourcesHold(dirs, listing, t, names, identities);
    MovedToHolds(listing, t, names, identities);
    var c := MovedTo(listing, t, names, identities)[0];
    assert c in MovedTo(listing, t, names, identities) && c in sources;
    MovedNamespaces(c, names, identities);
    hide MovedTo, SourcesOf, Lists;
    forall s | s in sources
      ensures ValidNamespace(s) <==> !HasBackslash(s)
    {
      if s != t { MovedNamespaces(s, names, identities); }
    }
  }

  // A durable migration can be rolled back exactly when no source has a backslash in its
  // name: planning lets such a name through, and rollback refuses the whole journal for it.
  lemma AcceptedIff(g: Groups, dirs: map<string, Tree>, listing: seq<string>, names: map<string, string>, identities: set<string>)
    requires Planned(g, dirs, listing, names, identities) && Lists(listing, dirs) && GoodNames(names, identities)
    requires forall c :: c in dirs ==> '/' !in c
    ensures Accepted(g) <==> forall s :: s in Sources(g) ==> !HasBackslash(s)
  {
    hide Place, GoodNames, NoRepeats, Compatible, ValidNamespace, HasBackslash, MovedTo, SourcesOf, NamesAgree;
    forall t | t in g.sources
      ensures NamesAgree(t, g.sources[t])
    {
      GroupNames(t, dirs, listing, names, identities);
    }
    hide Planned, Lists;
    AllNamesAgree(g);
  }

  lemma AllNamesAgree(g: Groups)
    requires forall t :: t in g.sources ==> NamesAgree(t, g.sources[t])
    ensures Accepted(g) <==> forall s :: s in Sources(g) ==> !HasBackslash(s)
  {
  }

  // Such a name exists: one user's directory under a historical project name.
  lemma BackslashMoves(user: string, id: string, n: string)
    requires IsUuid(user) && IsUuid(id) && IsTechnicalName(n) && Separator(n) == |n|
    ensures var child := user + "__" + n + "__a\\b";
      Place(child, map[n := id], {id}).Move? && !ValidNamespace(child)
  {
    var child, scope := user + "__" + n + "__a\\b", n + "__a\\b";
    UuidHasNoUnderscore(user);
    assert child == user + ("__" + scope);
    FirstSeparator(user, "__" + scope);
    assert child[..36] == user && child[38..] == scope;
    assert scope[..|n| + 2] == n + "__";
    assert Owners(map[n := id], scope) == {n};
    assert child[|child| - 2] == '\\';
  }
}
