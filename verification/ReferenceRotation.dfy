// Rotating a project's public reference: four generated files, the database row, the
// gateway's containers and the Functions projection, with a journal for rolling back.
// Every state that a crash could leave behind is recorded in the host's `trail`.
module ReferenceRotation {
  import opened Prelude

  datatype Service = Nginx | Auth

  // A generated file: the public reference it carries, the rest of its text, its mode.
  datatype File = File(ref: string, text: string, mode: nat)

  // .env, Dockerfile, docker-compose.yml and the nginx configuration, in that order.
  type Files = s: seq<File> | |s| == 4 witness seq(4, _ => File("", "", 0))

  datatype Stage = Prepared | StoppingGateway | FilesRendered | ReferenceCommitted | Completed | RolledBack

  // Digests are injective and stand for the file they digest.
  datatype Manifest = Manifest(stage: Stage, running: set<Service>, backups: seq<File>)

  datatype Journal = Journal(copies: seq<File>, manifest: Option<Manifest>)

  datatype Snapshot = Snapshot(files: Files, ref: string, running: set<Service>, published: bool, journal: Option<Journal>)

  // What is fixed when a rotation begins.
  datatype Job = Job(oldRef: string, newRef: string, original: Files, running: set<Service>, published: bool)

  predicate Carry(files: Files, ref: string) {
    forall k :: 0 <= k < 4 ==> files[k].ref == ref
  }

  // Whatever serves requests agrees with the database.
  predicate Safe(s: Snapshot) {
    s.running != {} || s.published ==> Carry(s.files, s.ref)
  }

  predicate HasManifest(s: Snapshot) { s.journal.Some? && s.journal.value.manifest.Some? }

  // The journal can bring back everything that the rotation replaced.
  predicate Restores(j: Journal, job: Job) {
    && j.manifest.Some? && j.copies == job.original
    && j.manifest.value.backups == job.original && j.manifest.value.running == job.running
  }

  predicate Restored(s: Snapshot, job: Job) { s.files == job.original && s.ref == job.oldRef }

  predicate Rotated(s: Snapshot, job: Job) { Carry(s.files, job.newRef) && s.ref == job.newRef }

  // As the rotation found it, but for a journal.
  predicate Untouched(s: Snapshot, job: Job) {
    Restored(s, job) && s.running == job.running && s.published == job.published
  }

  // Kept by every write of a rotation, of its rollback and of recovery.
  ghost predicate Guarded(s: Snapshot, job: Job) {
    && Safe(s)
    && (s.ref == job.oldRef || s.ref == job.newRef)
    && (HasManifest(s) ==> Restores(s.journal.value, job))
    && (!HasManifest(s) ==> Untouched(s, job) || (s.journal.None? && (Restored(s, job) || Rotated(s, job))))
  }

  predicate WellPosed(job: Job) { job.oldRef != job.newRef && Carry(job.original, job.oldRef) }

  ghost predicate AllGuarded(trail: seq<Snapshot>, from: nat, job: Job) {
    forall k :: from <= k < |trail| ==> Guarded(trail[k], job)
  }

  // With nothing serving and a manifest on disk, files and reference may change freely.
  lemma StoppedStaysGuarded(s: Snapshot, s': Snapshot, job: Job)
    requires Guarded(s, job) && HasManifest(s) && s.running == {} && !s.published
    requires s' == s.(files := s'.files, ref := s'.ref) && (s'.ref == job.oldRef || s'.ref == job.newRef)
    ensures Guarded(s', job)
  {
  }

  lemma GuardedRef(s: Snapshot, job: Job)
    requires Guarded(s, job)
    ensures s.ref == job.oldRef || s.ref == job.newRef
  {
  }

  // The machine: each method is one command or one durable write, which may raise.
  class Host {
    var files: Files
    var ref: string
    var running: set<Service>
    var published: bool
    var journal: Option<Journal>
    var trail: seq<Snapshot>

    function Now(): Snapshot
      reads this
    {
      Snapshot(files, ref, running, published, journal)
    }

    constructor (s: Snapshot)
      ensures Now() == s && trail == []
    {
      files, ref, running, published, journal, trail := s.files, s.ref, s.running, s.published, s.journal, [];
    }

    twostate predicate Wrote(after: Snapshot, ok: bool)
      reads this
    {
      && (ok ==> Now() == after)
      && (Now() == old(Now()) || Now() == after)
      && trail == old(trail) + [Now()]
    }

    method Record()
      modifies this`trail
      ensures trail == old(trail) + [Now()]
    {
      trail := trail + [Now()];
    }

    // Stops both services, or only some before it fails.
    method Stop(works: bool) returns (ok: bool)
      modifies this`running, this`trail
      ensures ok == works && (ok ==> running == {})
      ensures running <= old(running) && Now() == old(Now()).(running := running)
      ensures trail == old(trail) + [Now()]
    {
      var stopped: set<Service> := *;
      running := if works then {} else running - stopped;
      Record();
      ok := works;
    }

    // Recreates the services, or leaves some of them down when it fails.
    method Up(services: set<Service>, works: bool) returns (ok: bool)
      modifies this`running, this`trail
      ensures ok == works && (ok ==> running == old(running) + services)
      ensures running <= old(running) + services && Now() == old(Now()).(running := running)
      ensures trail == old(trail) + [Now()]
    {
      var down: set<Service> := *;
      running := if works then running + services else running + services - down;
      Record();
      ok := works;
    }

    method Withdraw(works: bool) returns (ok: bool)
      modifies this`published, this`trail
      ensures ok == works && Wrote(old(Now()).(published := false), ok)
    {
      var reached := *;
      if works || reached { published := false; }
      Record();
      ok := works;
    }

    method Publish(works: bool) returns (ok: bool)
      modifies this`published, this`trail
      ensures ok == works && Wrote(old(Now()).(published := true), ok)
    {
      var reached := *;
      if works || reached { published := true; }
      Record();
      ok := works;
    }

    // Compare and swap of the reference in one transaction.
    method Swap(from: string, to: string, works: bool) returns (ok: bool)
      modifies this`ref, this`trail
      ensures ok ==> old(ref) == from
      ensures old(ref) == from ==> ok == works
      ensures Wrote(old(Now()).(ref := if old(ref) == from then to else old(ref)), ok)
    {
      var reached := *;
      ok := works && ref == from;
      if ref == from && (works || reached) { ref := to; }
      Record();
    }

    method WriteFile(k: nat, f: File, works: bool) returns (ok: bool)
      requires k < 4
      modifies this`files, this`trail
      ensures ok == works && Wrote(old(Now()).(files := old(files)[k := f]), ok)
    {
      var reached := *;
      if works || reached { files := files[k := f]; }
      Record();
      ok := works;
    }

    method WriteJournal(j: Option<Journal>, works: bool) returns (ok: bool)
      modifies this`journal, this`trail
      ensures ok == works && Wrote(old(Now()).(journal := j), ok)
    {
      var reached := *;
      if works || reached { journal := j; }
      Record();
      ok := works;
    }

    // Power is lost: the machine is as after one of the recorded writes.
    method Crash(from: nat) returns (k: nat)
      requires from < |trail|
      modifies this`files, this`ref, this`running, this`published, this`journal
      ensures from <= k < |trail| && Now() == trail[k]
    {
      k := *;
      if k < from || k >= |trail| { k := from; }
      var s := trail[k];
      files, ref, running, published, journal := s.files, s.ref, s.running, s.published, s.journal;
    }
  }

  class Rotation {
    const oldRef: string
    const newRef: string
    const host: Host
    var running: set<Service>
    var backups: seq<File>

    constructor (oldRef: string, newRef: string, host: Host)
      ensures this.oldRef == oldRef && this.newRef == newRef && this.host == host
      ensures running == {} && backups == []
    {
      this.oldRef, this.newRef, this.host, running, backups := oldRef, newRef, host, {}, [];
    }

    method Checkpoint(stage: Stage, works: bool) returns (ok: bool)
      requires host.journal.Some?
      modifies host`journal, host`trail
      ensures ok == works
      ensures host.Now() == old(host.Now()).(journal := host.journal)
      ensures var j := old(host.journal.value).(manifest := Some(Manifest(stage, running, backups)));
        (ok ==> host.journal == Some(j)) && (host.journal == old(host.journal) || host.journal == Some(j))
      ensures host.trail == old(host.trail) + [host.Now()]
    {
      ok := host.WriteJournal(Some(host.journal.value.(manifest := Some(Manifest(stage, running, backups)))), works);
    }

    // Nothing serves requests any more.
    method Quiesce(reliable: bool, ghost job: Job) returns (ok: bool)
      requires Guarded(host.Now(), job) && HasManifest(host.Now())
      modifies host`running, host`published, host`trail
      ensures old(host.trail) <= host.trail && AllGuarded(host.trail, |old(host.trail)|, job) && Guarded(host.Now(), job)
      ensures reliable ==> ok
      ensures ok ==> host.running == {} && !host.published
    {
      var works := *;
      ok := host.Withdraw(reliable || works);
      if ok {
        works := *;
        ok := host.Stop(reliable || works);
      }
    }

    method RestoreReference(reliable: bool, ghost job: Job) returns (ok: bool)
      requires job.oldRef == oldRef && job.newRef == newRef
      requires Guarded(host.Now(), job) && HasManifest(host.Now()) && host.running == {} && !host.published
      modifies host`ref, host`trail
      ensures old(host.trail) <= host.trail && AllGuarded(host.trail, |old(host.trail)|, job) && Guarded(host.Now(), job)
      ensures reliable ==> ok
      ensures ok ==> host.ref == oldRef
    {
      var works := *;
      ok := reliable || works;
      if ok && host.ref == newRef {
        works := *;
        ok := host.Swap(newRef, oldRef, reliable || works);
      } else if ok && host.ref != oldRef {
        ok := false;
      }
    }

    method RestoreFiles(reliable: bool, ghost job: Job) returns (ok: bool)
      requires Guarded(host.Now(), job) && HasManifest(host.Now()) && host.running == {} && !host.published
      modifies host`files, host`trail
      ensures old(host.trail) <= host.trail && AllGuarded(host.trail, |old(host.trail)|, job) && Guarded(host.Now(), job)
      ensures reliable ==> ok
      ensures ok ==> host.files == job.original
    {
      ok := true;
      var k := 0;
      while k < 4
        invariant 0 <= k <= 4 && ok
        invariant Guarded(host.Now(), job)
        invariant forall m :: 0 <= m < k ==> host.files[m] == job.original[m]
        invariant old(host.trail) <= host.trail && AllGuarded(host.trail, |old(host.trail)|, job)
      {
        var works := *;
        ok := host.WriteFile(k, host.journal.value.copies[k], reliable || works);
        if !ok { return; }
        k := k + 1;
      }
      assert host.files == job.original;
    }

    // Withdraws and stops, then puts back reference and files, and only then restarts.
    method Rollback(reliable: bool, ghost job: Job) returns (ok: bool)
      requires WellPosed(job) && job.oldRef == oldRef && job.newRef == newRef
      requires Guarded(host.Now(), job) && HasManifest(host.Now())
      requires running == job.running && backups == job.original
      modifies host
      ensures old(host.trail) <= host.trail && AllGuarded(host.trail, |old(host.trail)|, job) && Guarded(host.Now(), job)
      ensures reliable ==> ok
      ensures HasManifest(host.Now()) || host.journal.None?
      ensures ok ==> host.Now() == Snapshot(job.original, job.oldRef, job.running, true, None)
    {
      hide Guarded;
      ok := Quiesce(reliable, job);
      if !ok { return; }
      ok := RestoreReference(reliable, job);
      if !ok { return; }
      ok := RestoreFiles(reliable, job);
      if !ok { return; }
      ok := BringBack(reliable, job);
    }

    // With everything put back: restart, publish, and drop the journal.
    method BringBack(reliable: bool, ghost job: Job) returns (ok: bool)
      requires WellPosed(job) && Guarded(host.Now(), job) && HasManifest(host.Now()) && Restored(host.Now(), job)
      requires running == job.running && backups == job.original && host.running == {}
      modifies host
      ensures old(host.trail) <= host.trail && AllGuarded(host.trail, |old(host.trail)|, job) && Guarded(host.Now(), job)
      ensures reliable ==> ok
      ensures HasManifest(host.Now()) || host.journal.None?
      ensures ok ==> host.Now() == Snapshot(job.original, job.oldRef, job.running, true, None)
    {
      ok := Restart(reliable);
      if !ok { return; }
      var works := *;
      ok := host.Publish(reliable || works);
      if !ok { return; }
      works := *;
      ok := Checkpoint(RolledBack, reliable || works);
      if !ok { return; }
      works := *;
      ok := host.WriteJournal(None, reliable || works);
    }

    method Restart(reliable: bool) returns (ok: bool)
      modifies host`running, host`trail
      ensures reliable ==> ok
      ensures ok ==> host.running == old(host.running) + running
      ensures host.running <= old(host.running) + running && host.Now() == old(host.Now()).(running := host.running)
      ensures host.trail == old(host.trail) || host.trail == old(host.trail) + [host.Now()]
      ensures host.trail == old(host.trail) ==> host.Now() == old(host.Now())
    {
      ok := true;
      if running != {} {
        var works := *;
        ok := host.Up(running, reliable || works);
      }
    }

    // Explicit recovery: only a journal with a durable manifest can be rolled back.
    method RecoverRollback(reliable: bool, ghost job: Job) returns (ok: bool)
      requires WellPosed(job) && job.oldRef == oldRef && job.newRef == newRef && Guarded(host.Now(), job)
      modifies this, host
      ensures old(host.trail) <= host.trail && AllGuarded(host.trail, |old(host.trail)|, job) && Guarded(host.Now(), job)
      ensures reliable ==> (ok <==> HasManifest(old(host.Now())))
      ensures !HasManifest(old(host.Now())) ==> !ok && host.Now() == old(host.Now())
      ensures ok ==> host.Now() == Snapshot(job.original, job.oldRef, job.running, true, None)
    {
      if host.journal.None? || host.journal.value.manifest.None? { return false; }
      var copies, manifest := host.journal.value.copies, host.journal.value.manifest.value;
      if |copies| != 4 || |manifest.backups| != 4 { return false; }
      var k := 0;
      while k < 4
        invariant 0 <= k <= 4
      {
        if copies[k] != manifest.backups[k] { return false; }
        k := k + 1;
      }
      var works := *;
      if !reliable && !works { return false; }
      if host.ref != oldRef && host.ref != newRef { return false; }
      running, backups := manifest.running, manifest.backups;
      ok := Rollback(reliable, job);
    }

    // Copies the files into a new journal and makes the manifest durable.
    method Prepare(reliable: bool, ghost job: Job) returns (ok: bool)
      requires WellPosed(job) && job.oldRef == oldRef && job.newRef == newRef && backups == []
      requires Guarded(host.Now(), job) && host.journal.None? && Untouched(host.Now(), job) && running == job.running
      modifies this`backups, host`journal, host`trail
      ensures old(host.trail) <= host.trail && AllGuarded(host.trail, |old(host.trail)|, job) && Guarded(host.Now(), job)
      ensures host.Now() == old(host.Now()).(journal := host.journal)
      ensures reliable ==> ok
      ensures ok ==> HasManifest(host.Now()) && backups == job.original
    {
      var works := *;
      ok := host.WriteJournal(Some(Journal([], None)), reliable || works);
      if !ok { return; }
      var k := 0;
      while k < 4
        invariant 0 <= k <= 4 && ok
        invariant backups == host.files[..k] && host.journal == Some(Journal(backups, None))
        invariant Guarded(host.Now(), job) && host.Now() == old(host.Now()).(journal := host.journal)
        invariant old(host.trail) <= host.trail && AllGuarded(host.trail, |old(host.trail)|, job)
      {
        works := *;
        ok := host.WriteJournal(Some(Journal(backups + [host.files[k]], None)), reliable || works);
        if !ok { return; }
        backups := backups + [host.files[k]];
        k := k + 1;
      }
      works := *;
      ok := Checkpoint(Prepared, reliable || works);
    }

    // Renders the four files for the new reference.
    method Render(texts: seq<string>, reliable: bool, ghost job: Job) returns (ok: bool)
      requires |texts| == 4 && job.newRef == newRef
      requires Guarded(host.Now(), job) && HasManifest(host.Now()) && host.running == {} && !host.published
      modifies host`files, host`trail
      ensures old(host.trail) <= host.trail && AllGuarded(host.trail, |old(host.trail)|, job) && Guarded(host.Now(), job)
      ensures reliable ==> ok
      ensures ok ==> forall k :: 0 <= k < 4 ==> host.files[k] == File(newRef, texts[k], old(host.files)[k].mode)
    {
      hide Guarded;
      ok := true;
      var order := [0, 3, 1, 2];
      var n := 0;
      while n < 4
        invariant 0 <= n <= 4 && ok
        invariant forall m :: 0 <= m < n ==> host.files[order[m]] == File(newRef, texts[order[m]], old(host.files)[order[m]].mode)
        invariant forall m :: n <= m < 4 ==> host.files[order[m]] == old(host.files)[order[m]]
        invariant Guarded(host.Now(), job) && HasManifest(host.Now()) && host.running == {} && !host.published
        invariant old(host.trail) <= host.trail && AllGuarded(host.trail, |old(host.trail)|, job)
      {
        var k, works := order[n], *;
        ghost var before := host.Now();
        GuardedRef(before, job);
        ok := host.WriteFile(k, File(newRef, texts[k], host.files[k].mode), reliable || works);
        StoppedStaysGuarded(before, host.Now(), job);
        if !ok { return; }
        n := n + 1;
      }
      assert order[0] == 0 && order[1] == 3 && order[2] == 1 && order[3] == 2;
    }

    // From the durable manifest to the stopped gateway, the new files and the new reference.
    method Switch(texts: seq<string>, reliable: bool, ghost job: Job) returns (ok: bool)
      requires |texts| == 4 && WellPosed(job) && job.oldRef == oldRef && job.newRef == newRef
      requires Guarded(host.Now(), job) && HasManifest(host.Now()) && Restored(host.Now(), job)
      requires running == job.running && backups == job.original
      modifies host
      ensures old(host.trail) <= host.trail && AllGuarded(host.trail, |old(host.trail)|, job) && Guarded(host.Now(), job)
      ensures HasManifest(host.Now())
      ensures reliable ==> ok
      ensures ok ==> host.running == {} && !host.published && Rotated(host.Now(), job)
      ensures ok ==> forall k :: 0 <= k < 4 ==> host.files[k] == File(newRef, texts[k], old(host.files)[k].mode)
    {
      hide Guarded;
      var works := *;
      ghost var before := host.Now();
      ok := host.Withdraw(reliable || works);
      QuieterStaysGuarded(before, host.Now(), job);
      if !ok { return; }
      ok := Mark(StoppingGateway, reliable, job);
      if !ok { return; }
      works := *;
      before := host.Now();
      ok := host.Stop(reliable || works);
      QuieterStaysGuarded(before, host.Now(), job);
      if !ok { return; }
      ok := Render(texts, reliable, job);
      if !ok { return; }
      ok := CommitReference(reliable, job);
    }

    method CommitReference(reliable: bool, ghost job: Job) returns (ok: bool)
      requires job.oldRef == oldRef && job.newRef == newRef && host.ref == oldRef && Carry(host.files, newRef)
      requires Guarded(host.Now(), job) && HasManifest(host.Now()) && host.running == {} && !host.published
      requires running == job.running && backups == job.original
      modifies host`ref, host`journal, host`trail
      ensures old(host.trail) <= host.trail && AllGuarded(host.trail, |old(host.trail)|, job) && Guarded(host.Now(), job)
      ensures HasManifest(host.Now())
      ensures reliable ==> ok
      ensures ok ==> Rotated(host.Now(), job)
    {
      hide Guarded;
      ok := Mark(FilesRendered, reliable, job);
      if !ok { return; }
      var works := *;
      ghost var before := host.Now();
      GuardedRef(before, job);
      ok := host.Swap(oldRef, newRef, reliable || works);
      StoppedStaysGuarded(before, host.Now(), job);
    }

    method Mark(stage: Stage, reliable: bool, ghost job: Job) returns (ok: bool)
      requires Guarded(host.Now(), job) && HasManifest(host.Now())
      requires running == job.running && backups == job.original
      modifies host`journal, host`trail
      ensures host.Now() == old(host.Now()).(journal := host.journal) && HasManifest(host.Now())
      ensures host.trail == old(host.trail) + [host.Now()] && Guarded(host.Now(), job)
      ensures reliable ==> ok
    {
      var works := *;
      ok := Checkpoint(stage, reliable || works);
    }

    // The guarded part of a rotation; it raises by returning false.
    method Advance(texts: seq<string>, reliable: bool, ghost job: Job) returns (ok: bool)
      requires |texts| == 4 && WellPosed(job) && job.oldRef == oldRef && job.newRef == newRef
      requires Guarded(host.Now(), job) && HasManifest(host.Now()) && Restored(host.Now(), job)
      requires running == job.running && backups == job.original
      modifies host
      ensures old(host.trail) <= host.trail && AllGuarded(host.trail, |old(host.trail)|, job) && Guarded(host.Now(), job)
      ensures HasManifest(host.Now())
      ensures reliable ==> ok
      ensures ok ==> host.running == job.running && host.published && Rotated(host.Now(), job)
      ensures ok ==> forall k :: 0 <= k < 4 ==> host.files[k] == File(newRef, texts[k], old(host.files)[k].mode)
    {
      hide Guarded;
      ok := Switch(texts, reliable, job);
      if !ok { return; }
      ok := Mark(ReferenceCommitted, reliable, job);
      if !ok { return; }
      ghost var before := host.Now();
      ok := Restart(reliable);
      AgreeingStaysGuarded(before, host.Now(), job);
      if !ok { return; }
      before := host.Now();
      var works := *;
      ok := host.Publish(reliable || works);
      AgreeingStaysGuarded(before, host.Now(), job);
      if !ok { return; }
      ok := Mark(Completed, reliable, job);
    }

    // `reserved` is the database's answer about the durable reservation.
    method Rotate(texts: seq<string>, reserved: bool, reliable: bool) returns (outcome: Outcome)
      requires |texts| == 4 && oldRef != newRef && backups == []
      requires Carry(host.files, host.ref)
      modifies this, host
      ensures outcome.Refused? <==> !(old(host.journal).None? && old(host.ref) == oldRef && reserved)
      ensures outcome.Refused? ==> host.Now() == old(host.Now()) && host.trail == old(host.trail)
      ensures reliable && !outcome.Refused? ==> outcome.Succeeded?
      ensures var job := Job(oldRef, newRef, old(host.files), old(host.running), old(host.published));
        !outcome.Refused? ==>
          && WellPosed(job)
          && old(host.trail) <= host.trail && AllGuarded(host.trail, |old(host.trail)|, job) && Guarded(host.Now(), job)
          && (outcome.Succeeded? ==>
                && Rotated(host.Now(), job) && host.running == job.running && host.published && host.journal.None?
                && forall k :: 0 <= k < 4 ==> host.files[k] == File(newRef, texts[k], old(host.files)[k].mode))
          && (outcome.Reverted? ==> host.Now() == Snapshot(job.original, job.oldRef, job.running, true, None))
          && (outcome.Unprepared? ==> host.Now() == old(host.Now()).(journal := host.journal))
          && (outcome.Unconfirmed? ==> HasManifest(host.Now()) || Restored(host.Now(), job) || Rotated(host.Now(), job))
    {
      hide Guarded;
      if host.journal.Some? || host.files[0].ref != oldRef || host.ref != oldRef || !reserved { return Refused; }
      ghost var job := Job(oldRef, newRef, host.files, host.running, host.published);
      StartIsGuarded(host.Now(), job);
      running := host.running;
      var ok := Prepare(reliable, job);
      if !ok { return Unprepared; }
      ok := Advance(texts, reliable, job);
      if !ok {
        outcome := AfterFailure(job);
        return;
      }
      var works := *;
      ghost var before := host.Now();
      ok := host.WriteJournal(None, reliable || works);
      EndIsGuarded(before, host.Now(), job);
      outcome := if ok then Succeeded else Unconfirmed;
    }

    // A failed rotation is rolled back; if even that fails the gateway is stopped.
    method AfterFailure(ghost job: Job) returns (outcome: Outcome)
      requires WellPosed(job) && job.oldRef == oldRef && job.newRef == newRef
      requires Guarded(host.Now(), job) && HasManifest(host.Now())
      requires running == job.running && backups == job.original
      modifies host
      ensures old(host.trail) <= host.trail && AllGuarded(host.trail, |old(host.trail)|, job) && Guarded(host.Now(), job)
      ensures outcome.Reverted? || outcome.Unconfirmed?
      ensures outcome.Reverted? ==> host.Now() == Snapshot(job.original, job.oldRef, job.running, true, None)
      ensures outcome.Unconfirmed? ==> HasManifest(host.Now()) || Restored(host.Now(), job) || Rotated(host.Now(), job)
    {
      var ok := Rollback(false, job);
      if ok { return Reverted; }
      var works := *;
      ghost var before := host.Now();
      ok := host.Stop(works);
      QuieterStaysGuarded(before, host.Now(), job);
      outcome := Unconfirmed;
    }

    // A rotation that loses power at any point, and whose recovery loses power or fails any
    // number of times: once a recovery runs undisturbed, a durable manifest brings back the
    // old reference, the old files and the recorded services. Without a manifest either
    // nothing was touched, services included, or the journal was already removed from a
    // finished rotation or rollback.  All that time whatever served agreed with the database.
    method SurvivesCrashes(texts: seq<string>, interruptions: nat) returns (recovered: bool)
      requires |texts| == 4 && oldRef != newRef && backups == []
      requires host.journal.None? && host.ref == oldRef && Carry(host.files, host.ref)
      modifies this, host
      ensures old(host.trail) <= host.trail && forall k :: |old(host.trail)| <= k < |host.trail| ==> Safe(host.trail[k])
      ensures recovered ==> host.Now() == Snapshot(old(host.files), oldRef, old(host.running), true, None)
      ensures !recovered ==>
        || host.Now() == old(host.Now()).(journal := host.journal)
        || (host.journal.None? && host.files == old(host.files) && host.ref == oldRef)
        || (host.journal.None? && Carry(host.files, newRef) && host.ref == newRef)
    {
      hide Guarded;
      ghost var job := Job(oldRef, newRef, host.files, host.running, host.published);
      var begun := |host.trail|;
      var _ := Rotate(texts, true, false);
      if begun < |host.trail| { var _ := host.Crash(begun); }
      var n := 0;
      while n < interruptions
        invariant WellPosed(job) && Guarded(host.Now(), job)
        invariant old(host.trail) <= host.trail && AllGuarded(host.trail, |old(host.trail)|, job)
      {
        var from := |host.trail|;
        var _ := RecoverRollback(false, job);
        if from < |host.trail| { var _ := host.Crash(from); }
        n := n + 1;
      }
      if !HasManifest(host.Now()) { NothingToUndo(host.Now(), job); }
      recovered := RecoverRollback(true, job);
      forall k | |old(host.trail)| <= k < |host.trail|
        ensures Safe(host.trail[k])
      {
        GuardedIsSafe(host.trail[k], job);
      }
    }
  }

  const PAGE := File("ref-one", "server", 420)

  // Loss of power right after a rotation created its journal directory.
  const BEGUN := Snapshot([PAGE, PAGE, PAGE, PAGE], "ref-one", {Nginx, Auth}, true, Some(Journal([], None)))

  // Such a journal sticks: recovery refuses it although every command works, and no other
  // rotation starts.
  method FirstWriteSticks(newRef: string, texts: seq<string>) returns (host: Host, recovered: bool, outcome: Outcome)
    requires |texts| == 4 && newRef != BEGUN.ref
    ensures Guarded(BEGUN, Job(BEGUN.ref, newRef, BEGUN.files, BEGUN.running, BEGUN.published))
    ensures !recovered && outcome.Refused? && host.Now() == BEGUN
  {
    host := new Host(BEGUN);
    var first := new Rotation(BEGUN.ref, newRef, host);
    recovered := first.RecoverRollback(true, Job(BEGUN.ref, newRef, BEGUN.files, BEGUN.running, BEGUN.published));
    var second := new Rotation(BEGUN.ref, newRef, host);
    outcome := second.Rotate(texts, true, true);
  }

  datatype Outcome = Refused | Unprepared | Succeeded | Reverted | Unconfirmed

  lemma StartIsGuarded(s: Snapshot, job: Job)
    requires s.journal.None? && s.ref == job.oldRef && Carry(s.files, s.ref) && Untouched(s, job)
    ensures Guarded(s, job)
  {
  }

  // The journal of a finished rotation may go.
  lemma EndIsGuarded(s: Snapshot, s': Snapshot, job: Job)
    requires Guarded(s, job) && Rotated(s, job) && s' == s.(journal := s'.journal)
    requires s'.journal == s.journal || s'.journal.None?
    ensures Guarded(s', job)
  {
  }

  lemma NothingToUndo(s: Snapshot, job: Job)
    requires Guarded(s, job) && !HasManifest(s)
    ensures Untouched(s, job) || (s.journal.None? && (Restored(s, job) || Rotated(s, job)))
  {
  }

  lemma GuardedIsSafe(s: Snapshot, job: Job)
    requires Guarded(s, job)
    ensures Safe(s)
  {
  }

  lemma QuieterStaysGuarded(s: Snapshot, s': Snapshot, job: Job)
    requires Guarded(s, job) && (HasManifest(s) || s.journal.None?)
    requires s'.running <= s.running && (s'.published ==> s.published)
    requires s' == s.(running := s'.running, published := s'.published)
    ensures Guarded(s', job)
  {
  }

  // Once files and database agree on the new reference, anything may serve.
  lemma AgreeingStaysGuarded(s: Snapshot, s': Snapshot, job: Job)
    requires Guarded(s, job) && HasManifest(s) && Rotated(s, job)
    requires s' == s.(running := s'.running, published := s'.published)
    ensures Guarded(s', job)
  {
  }
}
