// The queue object: its dictionaries and where each worker's coroutine stands.  Each method
// is what happens between two points at which other coroutines and sessions may run.
module ActionQueueService {
  import opened Prelude
  import opened ActionQueue
  import opened ActionQueueRuns

  // The database's table of session advisory locks.
  class AdvisoryLocks {
    var owner: map<Row, Name>

    constructor ()
      ensures owner == map[]
    {
      owner := map[];
    }
  }

  // The locks taken by one worker until it must wait for another session.
  function LockWhileFree(s: State, n: Name): State
    requires PhaseOf(s, n).Locking? && Sound(PhaseOf(s, n))
    decreases |Locks(PhaseOf(s, n).action)| - PhaseOf(s, n).held
  {
    if Enabled(s, Lock(n)) then LockWhileFree(Next(s, Lock(n)), n) else s
  }

  // The worker owns every row that its action touches and no other; or, when `wanted` is
  // held by another session, every such row below that one and no other.
  ghost predicate Acquired(owner: map<Row, Name>, n: Name, a: Action, wanted: Option<Row>) {
    && (forall r: Row :: (r in owner && owner[r] == n) <==>
          (r == a.project || r in a.additional) && (wanted.Some? ==> r < wanted.value))
    && (wanted.Some? ==>
          && (wanted.value == a.project || wanted.value in a.additional)
          && wanted.value in owner && owner[wanted.value] != n)
  }

  lemma LockedRows(s: State, n: Name)
    requires Inv(s) && PhaseOf(s, n).Locking?
    ensures Sound(PhaseOf(s, n))
    ensures var s' := LockWhileFree(s, n); var p := PhaseOf(s', n);
      && p.Locking? && p.action == PhaseOf(s, n).action
      && Acquired(s'.owner, n, p.action, if Wanting(p) then Some(Wanted(p)) else None)
  {
    var steps := LockingIsARun(s, n);
    RunKeeps(s, steps);
    LockingStops(s, n);
    var s' := LockWhileFree(s, n);
    hide Inv, Locks, LockWhileFree, Wanting, Wanted;
    forall r: Row
      ensures (r in s'.owner && s'.owner[r] == n) <==>
        Touches(PhaseOf(s', n).action, r) && (Wanting(PhaseOf(s', n)) ==> r < Wanted(PhaseOf(s', n)))
    {
      OwnsExactly(s', n, r);
    }
    if Wanting(PhaseOf(s', n)) { OwnsExactly(s', n, Wanted(PhaseOf(s', n))); }
  }

  lemma {:induction false} LockingStops(s: State, n: Name)
    requires PhaseOf(s, n).Locking? && Sound(PhaseOf(s, n))
    ensures var s' := LockWhileFree(s, n);
      && PhaseOf(s', n).Locking? && PhaseOf(s', n).action == PhaseOf(s, n).action
      && (Wanting(PhaseOf(s', n)) ==> Wanted(PhaseOf(s', n)) in s'.owner)
    decreases |Locks(PhaseOf(s, n).action)| - PhaseOf(s, n).held
  {
    hide Locks;
    if Enabled(s, Lock(n)) { LockingStops(Next(s, Lock(n)), n); }
  }

  function UnlockAll(s: State, n: Name): State
    requires PhaseOf(s, n).Unlocking? && Sound(PhaseOf(s, n))
    decreases PhaseOf(s, n).held
  {
    if PhaseOf(s, n).held > 0 then UnlockAll(Next(s, Unlock(n)), n) else s
  }

  // Both are runs of single steps, so everything proved of runs holds of them.
  lemma {:induction false} LockingIsARun(s: State, n: Name) returns (steps: seq<Step>)
    requires PhaseOf(s, n).Locking? && Sound(PhaseOf(s, n))
    ensures IsRun(s, steps) && After(s, steps) == LockWhileFree(s, n)
    ensures forall i :: 0 <= i < |steps| ==> steps[i] == Lock(n)
    decreases |Locks(PhaseOf(s, n).action)| - PhaseOf(s, n).held
  {
    hide Locks;
    if Enabled(s, Lock(n)) {
      var rest := LockingIsARun(Next(s, Lock(n)), n);
      steps := [Lock(n)] + rest;
      assert steps[1..] == rest;
    } else {
      steps := [];
    }
  }

  lemma {:induction false} UnlockingIsARun(s: State, n: Name) returns (steps: seq<Step>)
    requires PhaseOf(s, n).Unlocking? && Sound(PhaseOf(s, n))
    ensures IsRun(s, steps) && After(s, steps) == UnlockAll(s, n)
    ensures forall i :: 0 <= i < |steps| ==> steps[i] == Unlock(n)
    decreases PhaseOf(s, n).held
  {
    hide Locks;
    if PhaseOf(s, n).held > 0 {
      var rest := UnlockingIsARun(Next(s, Unlock(n)), n);
      steps := [Unlock(n)] + rest;
      assert steps[1..] == rest;
    } else {
      steps := [];
    }
  }

  // After its unlocks a worker holds nothing, and the others hold what they held.
  lemma {:induction false} UnlockAllFrees(s: State, n: Name)
    requires Inv(s) && PhaseOf(s, n).Unlocking?
    ensures Sound(PhaseOf(s, n))
    ensures UnlockAll(s, n).owner == map r | r in s.owner && s.owner[r] != n :: s.owner[r]
    decreases PhaseOf(s, n).held
  {
    hide Locks;
    assert Sound(PhaseOf(s, n));
    if PhaseOf(s, n).held > 0 {
      var s' := Next(s, Unlock(n));
      StepKeeps(s, Unlock(n));
      UnlockAllFrees(s', n);
      var r := Locks(PhaseOf(s, n).action)[PhaseOf(s, n).held - 1];
      assert r in Held(PhaseOf(s, n)) && Owns(s, n, r);
    } else {
      forall r | r in s.owner
        ensures s.owner[r] != n
      {
        assert Owns(s, n, r) <==> r in Held(PhaseOf(s, n));
      }
    }
  }

  // The dictionaries agree with the coroutines.
  ghost predicate Fits(queues: map<Name, seq<Action>>, workers: map<Name, Phase>, current: map<Name, Action>) {
    && queues.Keys == workers.Keys
    && (forall n :: n in current <==> n in workers && !workers[n].Idle?)
    && (forall n :: n in current ==> current[n] == workers[n].action)
    && (forall n :: n in workers ==> Sound(workers[n]))
  }

  ghost function Glue(queues: map<Name, seq<Action>>, workers: map<Name, Phase>, owner: map<Row, Name>): State
    requires queues.Keys == workers.Keys
  {
    State(map n | n in queues :: Worker(queues[n], workers[n]), owner)
  }

  lemma Glued(queues: map<Name, seq<Action>>, workers: map<Name, Phase>, current: map<Name, Action>, owner: map<Row, Name>, n: Name)
    requires Fits(queues, workers, current)
    ensures var s := Glue(queues, workers, owner);
      && s.owner == owner && (n in s.workers <==> n in workers) && (n in current <==> !PhaseOf(s, n).Idle?)
      && (n in workers <==> n in queues) && (n in workers ==> s.workers[n] == Worker(queues[n], workers[n]))
      && (n in current ==> current[n] == workers[n].action)
      && (n in workers ==> Sound(workers[n]))
  {
  }

  // A busy worker moves on with its action.
  lemma Move(queues: map<Name, seq<Action>>, workers: map<Name, Phase>, current: map<Name, Action>,
             owner: map<Row, Name>, owner': map<Row, Name>, n: Name, p: Phase)
    requires Fits(queues, workers, current) && n in current
    requires !p.Idle? && Sound(p) && p.action == current[n]
    ensures n in workers && n in queues && Fits(queues, workers[n := p], current)
    ensures Glue(queues, workers[n := p], owner')
      == State(Glue(queues, workers, owner).workers[n := Worker(queues[n], p)], owner')
  {
    hide Sound;
  }

  lemma Rest(queues: map<Name, seq<Action>>, workers: map<Name, Phase>, current: map<Name, Action>, owner: map<Row, Name>, n: Name)
    requires Fits(queues, workers, current) && n in workers
    ensures Fits(queues, workers[n := Idle], current - {n})
    ensures Glue(queues, workers[n := Idle], owner)
      == State(Glue(queues, workers, owner).workers[n := Worker(queues[n], Idle)], owner)
  {
    hide Locks;
  }

  // An idle worker takes the first action of its queue.
  lemma Wake(queues: map<Name, seq<Action>>, workers: map<Name, Phase>, current: map<Name, Action>, owner: map<Row, Name>, n: Name)
    requires Fits(queues, workers, current) && n in queues && queues[n] != []
    ensures var w := Worker(queues[n][1..], Locking(queues[n][0], 0));
      && Fits(queues[n := w.queue], workers[n := w.phase], current[n := queues[n][0]])
      && Glue(queues[n := w.queue], workers[n := w.phase], owner) == State(Glue(queues, workers, owner).workers[n := w], owner)
  {
  }

  lemma Append(queues: map<Name, seq<Action>>, workers: map<Name, Phase>, current: map<Name, Action>, owner: map<Row, Name>, n: Name, a: Action)
    requires Fits(queues, workers, current)
    ensures var s := Glue(queues, workers, owner);
      var queues', workers' := queues[n := Queued(s, n) + [a]], workers[n := PhaseOf(s, n)];
      Fits(queues', workers', current) && Glue(queues', workers', owner) == Next(s, Submit(n, a))
  {
    var s := Glue(queues, workers, owner);
    Glued(queues, workers, current, owner, n);
    AppendFits(queues, workers, current, n, Queued(s, n) + [a], PhaseOf(s, n));
    hide Fits, Locks, Sound;
  }

  lemma AppendFits(queues: map<Name, seq<Action>>, workers: map<Name, Phase>, current: map<Name, Action>, n: Name, q: seq<Action>, p: Phase)
    requires Fits(queues, workers, current) && p == (if n in workers then workers[n] else Idle)
    ensures Fits(queues[n := q], workers[n := p], current)
  {
    hide Locks;
  }

  class ProjectActionQueue {
    var queues: map<Name, seq<Action>>
    var workers: map<Name, Phase>
    var current: map<Name, Action>
    const locks: AdvisoryLocks

    ghost predicate Valid()
      reads this
    {
      Fits(queues, workers, current)
    }

    ghost function State(): ActionQueue.State
      requires Valid()
      reads this, locks
    {
      Glue(queues, workers, locks.owner)
    }

    constructor (locks: AdvisoryLocks)
      ensures Valid() && this.locks == locks && State() == ActionQueue.State(map[], locks.owner)
    {
      this.locks, queues, workers, current := locks, map[], map[], map[];
    }

    method SubmitAction(name: Name, action: Action) returns (position: nat)
      requires Valid()
      modifies this`queues, this`workers
      ensures Valid()
      ensures State() == Next(old(State()), Submit(name, action))
      ensures position == |Queued(old(State()), name)|
    {
      hide Fits, Glue, Next;
      Glued(queues, workers, current, locks.owner, name);
      Append(queues, workers, current, locks.owner, name, action);
      if name !in queues {
        queues, workers := queues[name := []], workers[name := Idle];
      }
      position := |queues[name]|;
      queues := queues[name := queues[name] + [action]];
      assert queues == old(queues)[name := Queued(old(State()), name) + [action]];
      assert workers == old(workers)[name := PhaseOf(old(State()), name)];
    }

    // The worker wakes up on a non-empty queue.
    method TakeAction(name: Name)
      requires Valid() && Enabled(State(), Take(name))
      modifies this
      ensures Valid() && State() == Next(old(State()), Take(name))
    {
      hide Locks, Fits, Glue;
      Glued(queues, workers, current, locks.owner, name);
      Wake(queues, workers, current, locks.owner, name);
      var action := queues[name][0];
      queues := queues[name := queues[name][1..]];
      current := current[name := action];
      workers := workers[name := Locking(action, 0)];
    }

    // Takes the locks in their order until one is held by another session.
    method AcquireLocks(name: Name) returns (blocked: bool)
      requires Valid() && PhaseOf(State(), name).Locking?
      modifies this`workers, locks
      ensures Valid() && PhaseOf(old(State()), name).Locking? && Sound(PhaseOf(old(State()), name))
      ensures State() == LockWhileFree(old(State()), name)
      ensures !blocked <==> Enabled(State(), Run(name))
      ensures blocked ==> Wanting(PhaseOf(State(), name)) && Wanted(PhaseOf(State(), name)) in locks.owner
      ensures Inv(old(State())) ==>
        Acquired(locks.owner, name, PhaseOf(old(State()), name).action, if blocked then Some(Wanted(PhaseOf(State(), name))) else None)
    {
      hide Locks, Fits, Inv, Acquired;
      ghost var s0 := State();
      blocked := TakeLocks(name);
      if Inv(s0) { LockedRows(s0, name); }
      hide LockWhileFree;
    }

    method TakeLocks(name: Name) returns (blocked: bool)
      requires Valid() && PhaseOf(State(), name).Locking?
      modifies this`workers, locks
      ensures Valid() && PhaseOf(old(State()), name).Locking? && Sound(PhaseOf(old(State()), name))
      ensures State() == LockWhileFree(old(State()), name)
      ensures !blocked <==> Enabled(State(), Run(name))
      ensures blocked ==> Wanting(PhaseOf(State(), name)) && Wanted(PhaseOf(State(), name)) in locks.owner
    {
      hide Locks, Fits, Glue;
      Glued(queues, workers, current, locks.owner, name);
      var action := current[name];
      var order, held := Locks(action), workers[name].held;
      while held < |order| && order[held] !in locks.owner
        invariant held <= |order|
        invariant Valid() && name in current && current[name] == action && name in workers && workers[name] == Locking(action, held)
        invariant name in State().workers && State().workers[name] == Worker(queues[name], workers[name])
        invariant LockWhileFree(State(), name) == LockWhileFree(old(State()), name)
        decreases |order| - held
      {
        Glued(queues, workers, current, locks.owner, name);
        Move(queues, workers, current, locks.owner, locks.owner[order[held] := name], name, Locking(action, held + 1));
        locks.owner := locks.owner[order[held] := name];
        held := held + 1;
        workers := workers[name := Locking(action, held)];
      }
      Glued(queues, workers, current, locks.owner, name);
      blocked := held < |order|;
    }

    // Releases in reverse order what was acquired.
    method ReleaseLocks(name: Name)
      requires Valid() && PhaseOf(State(), name).Unlocking?
      modifies this`workers, locks
      ensures Valid() && PhaseOf(old(State()), name).Unlocking? && Sound(PhaseOf(old(State()), name))
      ensures State() == UnlockAll(old(State()), name)
    {
      hide Locks, Fits, Glue;
      Glued(queues, workers, current, locks.owner, name);
      var action := current[name];
      var acquired := Locks(action)[..workers[name].held];
      var held: nat := |acquired|;
      while held > 0
        invariant held <= |acquired| <= |Locks(action)| && acquired == Locks(action)[..|acquired|]
        invariant Valid() && name in current && current[name] == action && name in workers && workers[name] == Unlocking(action, held)
        invariant name in State().workers && State().workers[name] == Worker(queues[name], workers[name])
        invariant UnlockAll(State(), name) == UnlockAll(old(State()), name)
      {
        Glued(queues, workers, current, locks.owner, name);
        Move(queues, workers, current, locks.owner, locks.owner - {acquired[held - 1]}, name, Unlocking(action, held - 1));
        held := held - 1;
        locks.owner := locks.owner - {acquired[held]};
        workers := workers[name := Unlocking(action, held)];
      }
    }

    // The runner starts, and ends by returning or raising.
    method StartRunner(name: Name)
      requires Valid() && Enabled(State(), Run(name))
      modifies this`workers
      ensures Valid() && State() == Next(old(State()), Run(name))
    {
      hide Locks, Fits, Glue;
      Glued(queues, workers, current, locks.owner, name);
      Move(queues, workers, current, locks.owner, locks.owner, name, Running(current[name]));
      workers := workers[name := Running(current[name])];
    }

    method EndRunner(name: Name)
      requires Valid() && Enabled(State(), RunnerEnds(name))
      modifies this`workers
      ensures Valid() && State() == Next(old(State()), RunnerEnds(name))
    {
      hide Locks, Fits, Glue;
      Glued(queues, workers, current, locks.owner, name);
      Move(queues, workers, current, locks.owner, locks.owner, name, Unlocking(current[name], |Locks(current[name])|));
      workers := workers[name := Unlocking(current[name], |Locks(current[name])|)];
    }

    // A lock statement raised: what was acquired so far will be released.
    method AbandonLocks(name: Name)
      requires Valid() && Enabled(State(), LockFails(name))
      modifies this`workers
      ensures Valid() && State() == Next(old(State()), LockFails(name))
    {
      hide Locks, Fits, Glue;
      Glued(queues, workers, current, locks.owner, name);
      Move(queues, workers, current, locks.owner, locks.owner, name, Unlocking(current[name], workers[name].held));
      workers := workers[name := Unlocking(current[name], workers[name].held)];
    }

    method FinishAction(name: Name)
      requires Valid() && Enabled(State(), Done(name))
      modifies this`workers, this`current
      ensures Valid() && State() == Next(old(State()), Done(name))
    {
      hide Locks, Fits, Glue;
      Glued(queues, workers, current, locks.owner, name);
      Rest(queues, workers, current, locks.owner, name);
      current := current - {name};
      workers := workers[name := Idle];
    }

    method Status(name: Name) returns (job: Option<nat>, queued: nat, busy: bool)
      requires Valid()
      ensures queued == |Queued(State(), name)|
      ensures busy <==> !PhaseOf(State(), name).Idle?
      ensures job == if busy then Some(PhaseOf(State(), name).action.job) else None
    {
      queued := if name in queues then |queues[name]| else 0;
      busy := name in current;
      job := if name in current then Some(current[name].job) else None;
    }
  }
}
