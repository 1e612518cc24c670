// The files of one project as the service writes them, one durable write after another.
// Every state that a crash could leave behind is recorded in `trail`.
module PublicationStore {
  import opened Prelude
  import opened Publication

  const MAX_FUNCTIONS := 128

  datatype PublishRefusal = Missing | Changed | StorageFailed

  class Store {
    var state: State
    var context: Option<Context>
    var intent: Option<Intent>
    var code: map<Generation, map<(Slug, string), string>>
    var trail: seq<Disk>
    var touched: map<Generation, real>
    var clock: real

    function Now(): Disk
      reads this
    {
      Disk(state, context, intent, code)
    }

    // The generations on disk, with the modification times of their directories.
    function Generations(): Runtime
      reads this
    {
      Runtime(if context.Some? then Some(context.value.revision) else None,
              map g | g in code :: if g in touched then touched[g] else 0.0)
    }

    constructor ()
      ensures Healthy(Now()) && state == map[] && trail == []
    {
      state, context, intent, code, trail, touched, clock := map[], None, None, map[], [], map[], 0.0;
    }

    // Time passes, and the directory of the live generation is touched.
    method RetireCurrent()
      modifies this`touched, this`clock
      ensures clock >= old(clock) && Generations() == Retired(old(Generations()), clock)
    {
      var later: real := *;
      if later > clock { clock := later; }
      if context.Some? { touched := touched[context.value.revision := clock]; }
    }

    // What one write can have done by the time it returns: a write that raises may or may
    // not have reached the disk.
    twostate predicate Wrote(after: Disk, ok: bool)
      reads this
    {
      && (ok ==> Now() == after)
      && (Now() == old(Now()) || Now() == after)
      && trail == old(trail) + [Now()]
    }

    // Replaces one file by an atomic rename; `works` is how the file system takes it.
    method WriteState(s: State, works: bool) returns (ok: bool)
      modifies this`state, this`trail
      ensures Wrote(old(Now()).(state := s), ok) && (works ==> ok)
    {
      var reached := *;
      if works || reached { state := s; }
      trail := trail + [Now()];
      ok := works;
    }

    method WriteIntent(i: Intent, works: bool) returns (ok: bool)
      modifies this`intent, this`trail
      ensures Wrote(old(Now()).(intent := Some(i)), ok) && (works ==> ok)
    {
      var reached := *;
      if works || reached { intent := Some(i); }
      trail := trail + [Now()];
      ok := works;
    }

    method FinishPublication(works: bool) returns (ok: bool)
      modifies this`intent, this`trail
      ensures Wrote(old(Now()).(intent := None), ok) && (works ==> ok)
    {
      var reached := *;
      if works || reached { intent := None; }
      trail := trail + [Now()];
      ok := works;
    }

    method Withdraw(works: bool) returns (ok: bool)
      modifies this`context, this`trail, this`touched, this`clock
      ensures Wrote(Withdrawn(old(Now())), ok) && (works ==> ok)
      ensures ok ==> clock >= old(clock) && Generations() == RuntimeStep(old(Generations()), RuntimeEvent.Withdraw(clock))
    {
      RetireCurrent();
      var reached := *;
      if works || reached { context := None; }
      trail := trail + [Now()];
      ok := works;
    }

    method CreateGeneration(g: Generation)
      requires g !in code
      modifies this`code, this`touched, this`clock
      ensures clock >= old(clock) && code == old(code)[g := g.files]
      ensures Generations() == RuntimeStep(old(Generations()), Create(g, clock))
    {
      var later: real := *;
      if later > clock { clock := later; }
      code, touched := code[g := g.files], touched[g := clock];
    }

    // Creates the generation of code that a context names, or checks the one on disk.
    method PrepareContext(settings: Settings, files: map<(Slug, string), string>, works: bool) returns (c: Option<Context>)
      modifies this`code, this`trail, this`touched, this`clock
      ensures c.Some? ==> c.value == ContextValue(settings, files) && Stored(code, c.value.revision)
      ensures Now() == old(Now()).(code := code) && trail == old(trail) + [Now()]
      ensures forall g :: Stored(old(code), g) ==> Stored(code, g)
      ensures works && Generation(settings, files) !in old(code) ==> c.Some?
      ensures c.Some? ==>
        clock >= old(clock) && Generations() == RuntimeStep(old(Generations()), Create(c.value.revision, clock))
    {
      var revision := Generation(settings, files);
      var reached := *;
      if revision !in code && (works || reached) { CreateGeneration(revision); }
      trail := trail + [Now()];
      c := if (works || reached) && code[revision] == files then Some(ContextValue(settings, files)) else None;
    }

    // Puts a context live, then clears the generations that were retired too long ago.
    method ActivateContext(c: Context, works: bool) returns (ok: bool)
      modifies this`context, this`code, this`trail, this`touched, this`clock
      ensures works ==> ok
      ensures ok ==> clock >= old(clock) && Generations() == RuntimeStep(old(Generations()), Activate(c.revision, clock))
      ensures ok ==> context == Some(c)
      ensures old(trail) <= trail && forall k :: |old(trail)| <= k < |trail| ==> Activating(old(Now()), c, trail[k])
      ensures Activating(old(Now()), c, Now())
    {
      var reached := *;
      ghost var before := Generations();
      RetireCurrent();
      ghost var from := Now();
      if works || reached { context := Some(c); }
      trail := trail + [Now()];
      if !works && !reached { return false; }
      assert Generations() == Retired(before, clock).(live := Some(c.revision));
      ClearStale(c.revision);
      RetiredIsFresh(before, c.revision, clock);
      hide Stored, Generations, Activation, Retired;
      trail := trail + [Now()];
      ok := works;
    }

    method ClearStale(keep: Generation)
      modifies this`code
      ensures Generations() == old(Generations()).(touched := Recent(old(Generations()).touched, keep, clock))
      ensures code == map g | g in old(code) && g in Recent(old(Generations()).touched, keep, clock) :: old(code)[g]
    {
      code := map g | g in code && (g == keep || clock - (if g in touched then touched[g] else 0.0) <= RETENTION) :: code[g];
    }

    // Bridges an interrupted publication.  `reliable` says that every write works.
    method Recover(reliable: bool, ghost i: Intent) returns (ok: bool)
      modifies this`state, this`context, this`intent, this`trail, this`touched, this`clock
      ensures reliable ==> ok == Recovery(old(Now())).0 && trail == old(trail) + Recovery(old(Now())).1
      ensures reliable || ok ==> Now() == Recovered(old(Now()))
      ensures ok ==> intent.None?
      ensures old(trail) <= trail
      ensures Midway(old(Now()), i) ==> AllMidway(trail, |old(trail)|, i) && Midway(Now(), i)
    {
      hide Midway, IntentAccepted, ContextMatches, Decision, Generations, RuntimeStep, Retired, Activation;
      if intent.None? { return true; }
      var pending := intent.value;
      var before := Disk(state, context, intent, code);
      if Midway(before, i) { RecoveryStaysMidway(before, i); }
      if !IntentAccepted(before, pending) || !ContextMatches(before, pending) {
        var works := *;
        var _ := Withdraw(reliable || works);
        return false;
      }
      ok := true;
      if state != Decision(before, pending) {
        var works := *;
        ok := WriteState(Decision(before, pending), reliable || works);
      }
      if ok {
        var works := *;
        ok := FinishPublication(reliable || works);
      }
      if !ok {
        var works := *;
        var _ := Withdraw(works);
      }
    }

    // Publishes the saved draft of a function, as the route does once the state is loaded.
    // Any write may raise; the handler then restores what it can, and the surrounding
    // request handler withdraws the context.
    method Publish(slug: Slug, revision: Files, expected: Option<Files>, settings: Settings, reliable: bool)
        returns (refusal: Option<PublishRefusal>)
      requires Healthy(Now())
      modifies this
      ensures refusal == Some(Missing) <==> slug !in old(state)
      ensures refusal == Some(Changed) <==>
        slug in old(state) && !(revision == old(state)[slug].draft && expected == old(state)[slug].published)
      ensures refusal == Some(Missing) || refusal == Some(Changed) ==> Now() == old(Now()) && trail == old(trail)
      ensures slug in old(state) ==>
        var i := IntentOf(old(state), slug, settings);
        old(trail) <= trail && AllMidway(trail, |old(trail)|, i) && Midway(Now(), i)
      ensures refusal.None? ==>
        && slug in old(state) && Healthy(Now()) && state == Proposed(old(state), slug)
        && context == Some(ContextValue(settings, PublishedFiles(state)))
      ensures reliable && refusal == Some(StorageFailed) ==>
        slug in old(state) && IntentOf(old(state), slug, settings).runtime in old(code)
    {
      hide PublishedFiles, Midway, Fits, Stored, Inside, HasCode, Generations, RuntimeStep, Retired, Activation;
      if slug !in state { return Some(Missing); }
      HealthyIsMidway(Now(), IntentOf(state, slug, settings));
      if revision != state[slug].draft || expected != state[slug].published { return Some(Changed); }
      var i := IntentOf(state, slug, settings);
      var previous := context;
      var works := *;
      var prepared := PrepareContext(settings, PublishedFiles(i.proposed), reliable || works);
      PreparedIsInside(old(Now()), i, Now());
      ghost var c' := ContextValue(settings, PublishedFiles(i.proposed));
      if prepared.None? {
        works := *;
        var _ := Withdraw(works);
        AllInsideAreMidway(trail, |old(trail)|, i, previous, c', Now());
        return Some(StorageFailed);
      }
      AllInsideAreMidway(trail, |old(trail)|, i, previous, c', Now());
      var ok := PublishPrepared(i, prepared.value, reliable);
      refusal := if ok then None else Some(StorageFailed);
    }

    method PublishPrepared(i: Intent, c: Context, reliable: bool) returns (ok: bool)
      requires Inside(Now(), i, context, c) && Fits(context, i.previous)
      requires c == ContextValue(c.settings, PublishedFiles(i.proposed)) && i.runtime == c.revision
      requires intent.None? && state == i.previous && Stored(code, c.revision)
      modifies this
      ensures old(trail) <= trail && AllMidway(trail, |old(trail)|, i) && Midway(Now(), i)
      ensures ok ==> Healthy(Now()) && state == i.proposed && context == Some(c)
      ensures reliable ==> ok
    {
      hide PublishedFiles, Midway, Fits, Stored, Inside, HasCode, Generations, RuntimeStep, Retired, Activation;
      var previous := context;
      ok := Install(i, c, reliable);
      if !ok {
        RestoreAfterFailure(i, previous, c);
        AllInsideAreMidway(trail, |old(trail)|, i, previous, c, Now());
        return;
      }
      AllInsideAreMidway(trail, |old(trail)|, i, previous, c, Now());
      PublishedIsMidway(Now(), i, c);
      var works := *;
      ok := FinishPublication(reliable || works);
      if !ok {
        works := *;
        var _ := Withdraw(works);
      }
    }

    // Intent, then context, then state.
    method Install(i: Intent, c: Context, reliable: bool) returns (ok: bool)
      requires Inside(Now(), i, context, c) && intent.None? && state == i.previous && Stored(code, c.revision)
      modifies this
      ensures old(trail) <= trail && AllInside(trail, |old(trail)|, i, old(context), c)
      ensures Inside(Now(), i, old(context), c)
      ensures reliable ==> ok
      ensures ok ==> Now() == Disk(i.proposed, Some(c), Some(i), code)
    {
      hide Stored, Generations, RuntimeStep, Retired, Activation;
      var works := *;
      ok := WriteIntent(i, reliable || works);
      if !ok { return; }
      ghost var before, upTo := Now(), |trail|;
      works := *;
      ok := ActivateContext(c, reliable || works);
      ActivationsInside(before, i, old(context), c, c, trail, upTo, Now());
      if !ok { return; }
      works := *;
      ok := WriteState(i.proposed, reliable || works);
    }

    // Saves a draft: no pointer that the runtime follows changes.
    method SaveDraft(slug: Slug, files: Files, expected: Option<Files>, works: bool) returns (refusal: Option<PublishRefusal>)
      requires Healthy(Now())
      modifies this
      ensures refusal == Some(Changed) <==>
        expected != (if slug in old(state) then Some(old(state)[slug].draft) else None)
        || (slug !in old(state) && |old(state)| >= 128)
      ensures refusal.None? ==>
        && state == old(state)[slug := Pointers(files, if slug in old(state) then old(state)[slug].published else None)]
        && context == old(context)
      ensures old(trail) <= trail && AllHealthy(trail, |old(trail)|) && Healthy(Now())
      ensures PublishedFiles(state) == PublishedFiles(old(state))
    {
      hide Stored, Generations, RuntimeStep, Retired, Activation;
      var current := if slug in state then Some(state[slug].draft) else None;
      if expected != current { return Some(Changed); }
      if current.None? && |state| >= MAX_FUNCTIONS { return Some(Changed); }
      var pointers := Pointers(files, if slug in state then state[slug].published else None);
      DraftsAreInvisible(state, slug, pointers);
      hide PublishedFiles, Generations, RuntimeStep;
      var ok := WriteState(state[slug := pointers], works);
      if !ok {
        var again := *;
        var _ := Withdraw(again);
        return Some(StorageFailed);
      }
      refusal := None;
    }

    // Takes the project out of the runtime, and puts it back under new settings if enabled.
    method Configure(enabled: bool, settings: Settings, reliable: bool) returns (ok: bool)
      requires Healthy(Now())
      modifies this
      ensures ok && !enabled ==> context.None?
      ensures ok && enabled ==> context == Some(ContextValue(settings, PublishedFiles(state)))
      ensures state == old(state) && old(trail) <= trail && AllHealthy(trail, |old(trail)|) && Healthy(Now())
    {
      hide PublishedFiles, Stored, Generations, RuntimeStep, Retired, Activation;
      var works := *;
      ok := Withdraw(reliable || works);
      if ok && enabled { ok := Enable(settings, reliable); }
      if !ok {
        works := *;
        var _ := Withdraw(works);
      }
    }

    method Enable(settings: Settings, reliable: bool) returns (ok: bool)
      requires Healthy(Now()) && context.None?
      modifies this
      ensures ok ==> context == Some(ContextValue(settings, PublishedFiles(state)))
      ensures state == old(state) && old(trail) <= trail && AllHealthy(trail, |old(trail)|) && Healthy(Now())
    {
      hide PublishedFiles, Stored, Generations, RuntimeStep, Retired, Activation;
      var works := *;
      var prepared := PrepareContext(settings, PublishedFiles(state), reliable || works);
      ok := prepared.Some?;
      if ok {
        works := *;
        ok := ActivateContext(prepared.value, reliable || works);
      }
    }

    // Power is lost: the files are as after one of the recorded writes.
    method Crash(from: nat) returns (k: nat)
      requires from < |trail|
      modifies this`state, this`context, this`intent, this`code
      ensures from <= k < |trail| && Now() == trail[k]
    {
      k := *;
      if k < from || k >= |trail| { k := from; }
      state, context, intent, code := trail[k].state, trail[k].context, trail[k].intent, trail[k].code;
    }

    // A publication that loses power at any point, and whose recovery loses power or fails
    // any number of times, ends in the previous or the proposed state once a load gets
    // through, with no intent, its drafts untouched, and nothing live that does not belong.
    method SurvivesCrashes(slug: Slug, revision: Files, expected: Option<Files>, settings: Settings, interruptions: nat)
      requires Healthy(Now()) && slug in state && state[slug].published != Some(state[slug].draft)
      modifies this
      ensures Healthy(Now()) && Drafts(old(state), state)
      ensures state == old(state) || state == Proposed(old(state), slug)
    {
      hide Midway, PublishedFiles, Healthy;
      var i := IntentOf(state, slug, settings);
      ProposalActivates(state, slug);
      var begun := |trail|;
      HealthyIsMidway(Now(), i);
      var _ := Publish(slug, revision, expected, settings, false);
      if begun < |trail| { var _ := Crash(begun); }
      var n := 0;
      while n < interruptions
        invariant Midway(Now(), i)
      {
        begun := |trail|;
        var _ := Recover(false, i);
        if begun < |trail| { var _ := Crash(begun); }
        n := n + 1;
      }
      MidwayRecovers(Now(), i);
      var _ := Recover(true, i);
    }

    // The exception path of a publication.
    method RestoreAfterFailure(i: Intent, previous: Option<Context>, ghost c: Context)
      requires Inside(Now(), i, previous, c)
      modifies this
      ensures old(trail) <= trail && AllInside(trail, |old(trail)|, i, previous, c) && Inside(Now(), i, previous, c)
    {
      hide Stored, Generations, RuntimeStep, Retired, Activation;
      var works := *;
      var ok := false;
      if previous.None? {
        ok := Withdraw(works);
      } else {
        ghost var from := Now();
        ok := ActivateContext(previous.value, works);
        ActivationsInside(from, i, previous, c, previous.value, trail, |old(trail)|, Now());
      }
      if ok { RestoreState(i, previous, c); }
      works := *;
      ghost var before := Now();
      var _ := Withdraw(works);
      WithdrawnInside(before, i, previous, c);
      hide Inside;
    }

    method RestoreState(i: Intent, previous: Option<Context>, ghost c: Context)
      requires Inside(Now(), i, previous, c) && context == previous
      modifies this`state, this`intent, this`trail
      ensures old(trail) <= trail && AllInside(trail, |old(trail)|, i, previous, c) && Inside(Now(), i, previous, c)
    {
      hide Stored, Generations, RuntimeStep, Retired, Activation;
      var works := *;
      var ok := WriteState(i.previous, works);
      if ok {
        works := *;
        ok := FinishPublication(works);
      }
    }
  }

  lemma WithdrawnInside(d: Disk, i: Intent, previous: Option<Context>, c: Context)
    requires Inside(d, i, previous, c)
    ensures Inside(Withdrawn(d), i, previous, c)
  {
  }

  ghost predicate AllHealthy(trail: seq<Disk>, from: nat) {
    forall k :: from <= k < |trail| ==> Healthy(trail[k])
  }

  lemma HealthyIsMidway(d: Disk, i: Intent)
    requires Healthy(d) && d.state == i.previous && i.runtime.files == PublishedFiles(i.proposed)
    ensures Midway(d, i)
  {
  }

  lemma DraftsAreInvisible(s: State, slug: Slug, p: Pointers)
    requires p.published == if slug in s then s[slug].published else None
    ensures PublishedFiles(s[slug := p]) == PublishedFiles(s)
  {
    assert PublishedPaths(s[slug := p]) == PublishedPaths(s);
  }

  // A state inside a publication as its files show it: which context is live, and which of
  // the two states is on disk.
  ghost predicate Inside(d: Disk, i: Intent, previous: Option<Context>, c: Context) {
    && (d.intent == Some(i) || (d.intent.None? && d.state == i.previous && (d.context == previous || d.context.None?)))
    && (d.state == i.previous || d.state == i.proposed)
    && (d.context == previous || d.context == Some(c) || d.context.None?)
    && HasCode(d)
    && (previous.Some? ==> Stored(d.code, previous.value.revision))
  }

  function IntentOf(s: State, slug: Slug, settings: Settings): Intent
    requires slug in s
  {
    Intent(s, Proposed(s, slug), Generation(settings, PublishedFiles(Proposed(s, slug))))
  }

  ghost predicate AllInside(trail: seq<Disk>, from: nat, i: Intent, previous: Option<Context>, c: Context) {
    forall k :: from <= k < |trail| ==> Inside(trail[k], i, previous, c)
  }

  lemma ActivationsInside(before: Disk, i: Intent, previous: Option<Context>, c: Context, target: Context,
                          trail: seq<Disk>, from: nat, now: Disk)
    requires Inside(before, i, previous, c)
    requires previous == Some(target)
      || (target == c && Stored(before.code, c.revision) && before.context == previous && before.intent == Some(i))
    requires forall k :: from <= k < |trail| ==> Activating(before, target, trail[k])
    requires Activating(before, target, now)
    ensures AllInside(trail, from, i, previous, c) && Inside(now, i, previous, c)
  {
  }

  lemma PreparedIsInside(before: Disk, i: Intent, d: Disk)
    requires Healthy(before) && before.state == i.previous && d == before.(code := d.code)
    requires forall g :: Stored(before.code, g) ==> Stored(d.code, g)
    ensures forall c :: Inside(d, i, d.context, c) && Inside(Withdrawn(d), i, d.context, c)
    ensures Fits(before.context, i.previous)
  {
  }


  lemma AllInsideAreMidway(trail: seq<Disk>, from: nat, i: Intent, previous: Option<Context>, c: Context, now: Disk)
    requires AllInside(trail, from, i, previous, c) && Inside(now, i, previous, c) && Fits(previous, i.previous)
    requires c == ContextValue(c.settings, PublishedFiles(i.proposed)) && i.runtime == c.revision
    ensures AllMidway(trail, from, i) && Midway(now, i)
  {
  }

  // Once state and context are both new, dropping the intent, or the context too, leaves a
  // publication that is over.
  lemma PublishedIsMidway(d: Disk, i: Intent, c: Context)
    requires d.intent == Some(i) && d.state == i.proposed && d.context == Some(c)
    requires c == ContextValue(c.settings, PublishedFiles(i.proposed)) && i.runtime == c.revision
    requires Midway(d, i)
    ensures Midway(d.(intent := None), i) && Healthy(d.(intent := None))
    ensures Midway(Withdrawn(d), i) && Midway(Withdrawn(d.(intent := None)), i)
  {
  }

  // Every write of recovery, and the withdrawal after one that fails, stays inside the
  // publication.
  lemma RecoveryStaysMidway(d: Disk, i: Intent)
    requires Midway(d, i) && d.intent.Some?
    ensures d.intent.value == i && Midway(Withdrawn(d), i)
    ensures var e := d.(state := Decision(d, i));
      Midway(e, i) && Midway(Withdrawn(e), i) && Midway(e.(intent := None), i) && Midway(Withdrawn(e.(intent := None)), i)
  {
  }

  predicate Names(c: Option<Context>, g: Generation) { c.Some? && c.value.revision == g }

  // A state inside an activation that began at `before`.
  ghost predicate Activating(before: Disk, c: Context, d: Disk) {
    && d.state == before.state && d.intent == before.intent
    && (d.context == before.context || d.context == Some(c))
    && (forall g :: Stored(before.code, g) && (g == c.revision || Names(before.context, g)) ==> Stored(d.code, g))
  }

  ghost predicate AllMidway(trail: seq<Disk>, from: nat, i: Intent) {
    forall k :: from <= k < |trail| ==> Midway(trail[k], i)
  }
}
