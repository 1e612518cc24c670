// Edge-function publication: the durable state of one project's functions, the intent that
// bridges its two files, and recovery from a crash at any point.
// A digest is taken as injective and stands for what it digests.
module Publication {
  import opened Prelude

  type Slug = string

  // The files of one version of a function; there is always an entry point.
  type Files = m: map<string, string> | "index.ts" in m witness map["index.ts" := ""]

  // The two revisions of a function, each named by its files.
  datatype Pointers = Pointers(draft: Files, published: Option<Files>)

  type State = map<Slug, Pointers>

  // Secret, environment and network policy of the project.
  datatype Settings = Settings(secret: string, env: map<string, string>, network: Option<seq<string>>)

  datatype Generation = Generation(settings: Settings, files: map<(Slug, string), string>)

  // What the runtime reads: `revision` names a generation of code.
  datatype Context = Context(settings: Settings, revision: Generation)

  datatype Intent = Intent(previous: State, proposed: State, runtime: Generation)

  // Everything that survives a crash; `code` holds the generations on disk.
  datatype Disk = Disk(state: State, context: Option<Context>, intent: Option<Intent>,
                       code: map<Generation, map<(Slug, string), string>>)

  function PublishedPaths(s: State): set<(Slug, string)> {
    set slug, file | slug in s && s[slug].published.Some? && file in s[slug].published.value :: (slug, file)
  }

  function PublishedFiles(s: State): map<(Slug, string), string> {
    map p | p in PublishedPaths(s) :: s[p.0].published.value[p.1]
  }

  function ContextValue(settings: Settings, files: map<(Slug, string), string>): Context {
    Context(settings, Generation(settings, files))
  }

  // Publishing the saved draft of one function.
  function Proposed(s: State, slug: Slug): State
    requires slug in s
  {
    s[slug := s[slug].(published := Some(s[slug].draft))]
  }

  // The changes that recovery accepts as a publication.
  function Changes(a: State, b: State): set<Slug> {
    set slug | slug in a && slug in b && a[slug] != b[slug]
  }

  predicate ActivatesOne(a: State, b: State) {
    && a.Keys == b.Keys
    && |Changes(a, b)| == 1
    && (forall slug :: slug in a ==> a[slug].draft == b[slug].draft)
    && (forall slug :: slug in Changes(a, b) ==> b[slug].published == Some(b[slug].draft))
  }

  predicate Drafts(a: State, b: State) {
    a.Keys == b.Keys && forall slug :: slug in a ==> a[slug].draft == b[slug].draft
  }

  // ---------------------------------------------------------------------------
  // Recovery

  predicate IntentAccepted(d: Disk, i: Intent) {
    && ActivatesOne(i.previous, i.proposed)
    && (d.state == i.previous || d.state == i.proposed)
  }

  predicate Activated(d: Disk, i: Intent) { d.context.Some? && d.context.value.revision == i.runtime }

  predicate ContextMatches(d: Disk, i: Intent) {
    Activated(d, i) ==>
      var c := d.context.value;
      var files := PublishedFiles(i.proposed);
      c == ContextValue(c.settings, files) && c.revision in d.code && d.code[c.revision] == files
  }

  function Decision(d: Disk, i: Intent): State {
    if Activated(d, i) then i.proposed else i.previous
  }

  function Withdrawn(d: Disk): Disk { d.(context := None) }

  // The durable states that recovery passes through after `d`, and whether it succeeds.
  function Recovery(d: Disk): (bool, seq<Disk>) {
    if d.intent.None? then (true, [])
    else
      var i := d.intent.value;
      if !IntentAccepted(d, i) || !ContextMatches(d, i) then (false, [Withdrawn(d)])
      else
        var settled := d.(state := Decision(d, i));
        (true, (if d.state != Decision(d, i) then [settled] else []) + [settled.(intent := None)])
  }

  function Recovered(d: Disk): Disk {
    if Recovery(d).1 == [] then d else Recovery(d).1[|Recovery(d).1| - 1]
  }

  // Whatever the disk holds, recovery either leaves no intent or leaves nothing live, and it
  // touches neither drafts it was not told of nor the code.
  lemma FailsClosed(d: Disk)
    ensures Recovery(d).0 ==> Recovered(d).intent.None? && Recovered(d).context == d.context
    ensures !Recovery(d).0 ==> Recovered(d).context.None? && Recovered(d).intent == d.intent && Recovered(d).state == d.state
    ensures Recovered(d).code == d.code
  {
  }

  // Recovery accepts exactly an intent that publishes the draft of one function, found at either
  // of its two states, and whose context, if it is live, names those files and finds them on disk.
  lemma RecoversIff(d: Disk)
    requires d.intent.Some?
    ensures var i := d.intent.value;
      Recovery(d).0 <==>
        && i.previous.Keys == i.proposed.Keys
        && (exists slug :: slug in i.previous && i.previous[slug] != i.proposed[slug]
              && i.proposed[slug].published == Some(i.proposed[slug].draft)
              && forall other :: other in i.previous && other != slug ==> i.proposed[other] == i.previous[other])
        && (forall slug :: slug in i.previous ==> i.proposed[slug].draft == i.previous[slug].draft)
        && (d.state == i.previous || d.state == i.proposed)
        && (d.context.Some? && d.context.value.revision == i.runtime ==>
              i.runtime.settings == d.context.value.settings && i.runtime.files == PublishedFiles(i.proposed)
              && i.runtime in d.code && d.code[i.runtime] == PublishedFiles(i.proposed))
    ensures Recovery(d).0 ==>
      Recovered(d) == d.(intent := None,
        state := if d.context.Some? && d.context.value.revision == d.intent.value.runtime then d.intent.value.proposed else d.intent.value.previous)
    ensures !Recovery(d).0 ==> Recovered(d) == d.(context := None)
  {
    var i := d.intent.value;
    if i.previous.Keys == i.proposed.Keys { OneChange(i.previous, i.proposed); }
    hide Changes, PublishedFiles;
  }

  lemma OneChange(a: State, b: State)
    requires a.Keys == b.Keys
    ensures |Changes(a, b)| == 1 <==>
      exists slug :: slug in a && a[slug] != b[slug] && forall other :: other in a && other != slug ==> b[other] == a[other]
    ensures forall slug :: slug in Changes(a, b) <==> slug in a && a[slug] != b[slug]
  {
    if |Changes(a, b)| == 1 {
      assert Changes(a, b) != {};
      var slug :| slug in Changes(a, b);
      assert Changes(a, b) - {slug} == {} by { assert |Changes(a, b) - {slug}| == 0; }
      forall other | other in a && other != slug
        ensures b[other] == a[other]
      {
        assert other !in Changes(a, b) - {slug};
      }
    }
    if exists slug :: slug in a && a[slug] != b[slug] && forall other :: other in a && other != slug ==> b[other] == a[other] {
      var slug :| slug in a && a[slug] != b[slug] && forall other :: other in a && other != slug ==> b[other] == a[other];
      assert Changes(a, b) == {slug};
    }
  }

  // ---------------------------------------------------------------------------
  // The states between operations and the states inside a publication

  ghost predicate Fits(c: Option<Context>, s: State) {
    c.Some? ==> c.value == ContextValue(c.value.settings, PublishedFiles(s))
  }

  ghost predicate HasCode(d: Disk) {
    d.context.Some? ==> Stored(d.code, d.context.value.revision)
  }

  predicate Stored(code: map<Generation, map<(Slug, string), string>>, g: Generation) {
    g in code && code[g] == g.files
  }

  ghost predicate Healthy(d: Disk) {
    d.intent.None? && Fits(d.context, d.state) && HasCode(d)
  }

  // A state inside a publication: the live context is the old one, the new one or none, and
  // without an intent it belongs to the state on disk.
  ghost predicate Midway(d: Disk, i: Intent) {
    && (d.intent.None? || d.intent == Some(i))
    && i.runtime.files == PublishedFiles(i.proposed)
    && (d.state == i.previous || d.state == i.proposed)
    && (Fits(d.context, i.previous) || (Activated(d, i) && Fits(d.context, i.proposed)))
    && (d.intent.None? ==> Fits(d.context, d.state))
    && HasCode(d)
  }

  ghost predicate Pending(d: Disk, i: Intent) {
    d.intent == Some(i) && Midway(d, i) && ActivatesOne(i.previous, i.proposed)
  }

  lemma PublishedAt(s: State, slug: Slug, file: string)
    ensures (slug, file) in PublishedFiles(s) <==>
      slug in s && s[slug].published.Some? && file in s[slug].published.value
    ensures (slug, file) in PublishedFiles(s) ==> PublishedFiles(s)[(slug, file)] == s[slug].published.value[file]
  {
  }

  // The published files tell what is published.
  lemma PublishedFilesTell(a: State, b: State, slug: Slug)
    requires PublishedFiles(a) == PublishedFiles(b) && slug in a && slug in b
    ensures a[slug].published == b[slug].published
  {
    PublishedAt(a, slug, "index.ts");
    PublishedAt(b, slug, "index.ts");
    hide PublishedFiles, PublishedPaths;
    if a[slug].published.Some? {
      var p, q := a[slug].published.value, b[slug].published.value;
      forall file
        ensures file in p <==> file in q
        ensures file in p ==> p[file] == q[file]
      {
        PublishedAt(a, slug, file);
        PublishedAt(b, slug, file);
      }
      assert p == q;
    }
  }

  lemma ActivationShows(a: State, b: State)
    requires ActivatesOne(a, b)
    ensures PublishedFiles(a) != PublishedFiles(b)
  {
    assert Changes(a, b) != {};
    var slug :| slug in Changes(a, b);
    if PublishedFiles(a) == PublishedFiles(b) { PublishedFilesTell(a, b, slug); }
  }

  // A pending publication is always recovered: to the proposed state exactly when the new
  // context is live, else to the previous one, with drafts and live context untouched.
  lemma PendingRecovers(d: Disk, i: Intent)
    requires Pending(d, i)
    ensures Recovery(d).0 && Healthy(Recovered(d))
    ensures Recovered(d).state == (if Activated(d, i) then i.proposed else i.previous)
    ensures Recovered(d).context == d.context && Drafts(i.previous, Recovered(d).state)
    ensures Activated(d, i) <==> d.context.Some? && Fits(d.context, i.proposed)
  {
    ActivationShows(i.previous, i.proposed);
  }

  // Crashing inside recovery leaves a publication that will be decided the same way.
  lemma CrashInRecovery(d: Disk, i: Intent, k: nat)
    requires Pending(d, i) && k < |Recovery(d).1|
    ensures var e := Recovery(d).1[k];
      Healthy(e) || (Pending(e, i) && (Activated(e, i) <==> Activated(d, i)))
    ensures Recovered(Recovery(d).1[k]) == Recovered(d)
  {
    PendingRecovers(d, i);
    hide PublishedFiles, PublishedPaths, Stored, Changes;
  }

  // Starting recovery over and over, crashing after any number of its writes each time.
  ghost function AfterCrashes(d: Disk, crashes: seq<nat>): Disk
    decreases crashes
  {
    if crashes == [] then d
    else
      var writes := Recovery(d).1;
      AfterCrashes(if 0 < crashes[0] <= |writes| then writes[crashes[0] - 1] else d, crashes[1..])
  }

  // Any number of crashes inside recovery end where one undisturbed recovery ends.
  lemma {:induction false} CrashesDoNotMatter(d: Disk, i: Intent, crashes: seq<nat>)
    requires Pending(d, i) || Healthy(d)
    ensures Recovery(AfterCrashes(d, crashes)).0 && Recovered(AfterCrashes(d, crashes)) == Recovered(d)
    decreases crashes
  {
    if Pending(d, i) { PendingRecovers(d, i); }
    if crashes != [] {
      var writes := Recovery(d).1;
      if 0 < crashes[0] <= |writes| {
        CrashInRecovery(d, i, crashes[0] - 1);
        CrashesDoNotMatter(writes[crashes[0] - 1], i, crashes[1..]);
      } else {
        CrashesDoNotMatter(d, i, crashes[1..]);
      }
    }
  }

  // ---------------------------------------------------------------------------
  // Publishing what is already published

  lemma ProposalActivates(s: State, slug: Slug)
    requires slug in s
    ensures ActivatesOne(s, Proposed(s, slug)) <==> s[slug].published != Some(s[slug].draft)
    ensures Drafts(s, Proposed(s, slug))
  {
    var p := Proposed(s, slug);
    if s[slug].published != Some(s[slug].draft) {
      assert Changes(s, p) == {slug};
    } else {
      assert p == s && Changes(s, p) == {};
    }
  }

  // An interrupted publication can be recovered if and only if its draft was not the
  // published version already.  Otherwise recovery raises, now and at every later load, and
  // the intent stays for ever with nothing live.
  lemma RecoverableIff(d: Disk, previous: State, slug: Slug, runtime: Generation)
    requires slug in previous
    requires var i := Intent(previous, Proposed(previous, slug), runtime); d.intent == Some(i) && Midway(d, i)
    ensures Recovery(d).0 <==> previous[slug].published != Some(previous[slug].draft)
    ensures !Recovery(d).0 ==> Recovery(Recovered(d)) == (false, [Recovered(d)])
  {
    ProposalActivates(previous, slug);
    if previous[slug].published != Some(previous[slug].draft) {
      PendingRecovers(d, d.intent.value);
    }
  }

  // Such a disk is one write away: publishing again what is published, and losing power
  // between the intent and its removal.
  lemma RepublishingCanStick(settings: Settings, files: Files) returns (d: Disk)
    ensures d.intent.Some? && Midway(d, d.intent.value) && d.context.Some?
    ensures !Recovery(d).0 && Recovered(d) == d.(context := None)
    ensures Recovery(Recovered(d)) == (false, [Recovered(d)])
  {
    var s: State := map["hello" := Pointers(files, Some(files))];
    var c := ContextValue(settings, PublishedFiles(s));
    d := Disk(s, Some(c), Some(Intent(s, Proposed(s, "hello"), c.revision)), map[c.revision := PublishedFiles(s)]);
    assert Proposed(s, "hello") == s;
    RecoverableIff(d, s, "hello", c.revision);
  }

  // Recovery also completes what a failed publication left behind without its intent.
  lemma MidwayRecovers(d: Disk, i: Intent)
    requires Midway(d, i) && ActivatesOne(i.previous, i.proposed)
    ensures Recovery(d).0 && Healthy(Recovered(d))
    ensures Recovered(d).state == i.previous || Recovered(d).state == i.proposed
    ensures Recovered(d).context == d.context && Drafts(i.previous, Recovered(d).state)
  {
  }

  // ---------------------------------------------------------------------------
  // How long replaced code is kept

  const RETENTION := 120.0

  // The generation that is live, and when each one on disk was last touched.
  datatype Runtime = Runtime(live: Option<Generation>, touched: map<Generation, real>)

  datatype RuntimeEvent = Create(g: Generation, at: real) | Activate(g: Generation, at: real) | Withdraw(at: real)

  // The live generation's age counts from the moment it is retired.
  function Retired(r: Runtime, at: real): Runtime {
    if r.live.Some? && r.live.value in r.touched then r.(touched := r.touched[r.live.value := at]) else r
  }

  function Recent(touched: map<Generation, real>, keep: Generation, at: real): map<Generation, real> {
    map g | g in touched && (g == keep || at - touched[g] <= RETENTION) :: touched[g]
  }

  function Activation(r: Runtime, g: Generation, at: real): Runtime {
    Runtime(Some(g), Recent(Retired(r, at).touched, g, at))
  }

  // An activation keeps what it puts live and what it replaces.
  lemma RetiredIsFresh(r: Runtime, g: Generation, at: real)
    ensures forall h :: h in r.touched && (h == g || r.live == Some(h)) ==> h in Activation(r, g, at).touched
  {
  }

  function RuntimeStep(r: Runtime, e: RuntimeEvent): Runtime {
    match e
    case Create(g, at) => if g in r.touched then r else r.(touched := r.touched[g := at])
    case Activate(g, at) => Activation(r, g, at)
    case Withdraw(at) => Retired(r, at).(live := None)
  }

  function RuntimeAt(start: Runtime, events: seq<RuntimeEvent>, k: nat): Runtime
    requires k <= |events|
  {
    if k == 0 then start else RuntimeStep(RuntimeAt(start, events, k - 1), events[k - 1])
  }

  // An activation leaves exactly its own generation and those touched in the last two minutes,
  // the one it replaces among them.
  lemma ActivationLeaves(r: Runtime, g: Generation, h: Generation, at: real)
    requires h in r.touched
    ensures h in Activation(r, g, at).touched <==> h == g || r.live == Some(h) || at - r.touched[h] <= 120.0
  {
  }

  // Code that was live before event m is on disk for two minutes after it, whatever is
  // published or withdrawn meanwhile: twice the lifetime of the workers that may run it.
  lemma {:induction false} CodeOutlivesUse(start: Runtime, events: seq<RuntimeEvent>, m: nat, k: nat, g: Generation)
    requires m < k <= |events| && forall i, j :: 0 <= i < j < |events| ==> events[i].at <= events[j].at
    requires RuntimeAt(start, events, m).live == Some(g) && g in RuntimeAt(start, events, m).touched
    requires forall j :: m <= j < k ==> events[j].at <= events[m].at + 120.0
    ensures var r := RuntimeAt(start, events, k); g in r.touched && (r.live == Some(g) || r.touched[g] >= events[m].at)
    decreases k
  {
    if m < k - 1 {
      CodeOutlivesUse(start, events, m, k - 1, g);
    }
  }
}
