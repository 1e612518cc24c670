// Runs of the project workers: order, exclusion in every reachable state, and termination.
module ActionQueueRuns {
  import opened Prelude
  import opened ActionQueue

  predicate IsRun(s: State, steps: seq<Step>)
    decreases steps
  {
    steps != [] ==> Enabled(s, steps[0]) && IsRun(Next(s, steps[0]), steps[1..])
  }

  function After(s: State, steps: seq<Step>): State
    requires IsRun(s, steps)
    decreases steps
  {
    if steps == [] then s else After(Next(s, steps[0]), steps[1..])
  }

  lemma {:induction false} RunKeeps(s: State, steps: seq<Step>)
    requires Inv(s) && IsRun(s, steps)
    ensures Inv(After(s, steps))
    decreases steps
  {
    hide Inv, Enabled, Next;
    if steps != [] {
      StepKeeps(s, steps[0]);
      RunKeeps(Next(s, steps[0]), steps[1..]);
    }
  }

  lemma StartHolds()
    ensures Inv(START)
  {
  }

  // Whatever the workers have done so far: runners sharing a row exclude each other, no
  // one waits in a circle, and someone with work can step.
  lemma EveryReachableState(steps: seq<Step>, chain: seq<Name>, n: Name, m: Name)
    requires IsRun(START, steps)
    ensures var s := After(START, steps);
      && (n != m && PhaseOf(s, n).Running? && PhaseOf(s, m).Running? ==>
            forall r :: r == PhaseOf(s, n).action.project || r in PhaseOf(s, n).action.additional ==>
              r != PhaseOf(s, m).action.project && r !in PhaseOf(s, m).action.additional)
      && (|chain| >= 2 && Chain(s, chain) ==> chain[0] != chain[|chain| - 1])
      && (Busy(s, n) ==> exists step :: Enabled(s, step) && Advances(step))
  {
    StartHolds();
    RunKeeps(START, steps);
    hide Inv, Locks, IsRun, After;
    var s := After(START, steps);
    if n != m && PhaseOf(s, n).Running? && PhaseOf(s, m).Running? {
      forall r | Touches(PhaseOf(s, n).action, r)
        ensures r != PhaseOf(s, m).action.project && r !in PhaseOf(s, m).action.additional
      {
        MutualExclusion(s, n, m, r);
      }
    }
    if |chain| >= 2 && Chain(s, chain) { NoCircularWait(s, chain); }
    if Busy(s, n) { var step := SomeoneAdvances(s, n); }
  }

  // ---------------------------------------------------------------------------
  // First in, first out

  datatype Outcome = Ran(action: Action) | NotRun(action: Action)

  function Submitted(steps: seq<Step>, n: Name): seq<Action> {
    if steps == [] then []
    else (if steps[0].Submit? && steps[0].name == n then [steps[0].action] else []) + Submitted(steps[1..], n)
  }

  // What became of the project's actions, in the order in which it happened.
  function Handled(s: State, steps: seq<Step>, n: Name): seq<Outcome>
    requires IsRun(s, steps)
    decreases steps
  {
    if steps == [] then []
    else
      (if steps[0] == Run(n) then [Ran(PhaseOf(s, n).action)]
       else if steps[0] == LockFails(n) then [NotRun(PhaseOf(s, n).action)]
       else []) + Handled(Next(s, steps[0]), steps[1..], n)
  }

  function Pending(s: State, n: Name): seq<Action> {
    (if PhaseOf(s, n).Locking? then [PhaseOf(s, n).action] else []) + Queued(s, n)
  }

  function ActionsOf(outcomes: seq<Outcome>): seq<Action> {
    seq(|outcomes|, i requires 0 <= i < |outcomes| => outcomes[i].action)
  }

  // The action that a step submits, and the one that it disposes of.
  function Entered(step: Step, n: Name): seq<Action> {
    if step.Submit? && step.name == n then [step.action] else []
  }

  function Disposed(s: State, step: Step, n: Name): seq<Action>
    requires Enabled(s, step)
  {
    if step == Run(n) || step == LockFails(n) then [PhaseOf(s, n).action] else []
  }

  lemma PendingMoves(s: State, step: Step, n: Name)
    requires Enabled(s, step)
    ensures Pending(s, n) + Entered(step, n) == Disposed(s, step, n) + Pending(Next(s, step), n)
  {
    hide Locks;
    if step.name != n {
      assert PhaseOf(Next(s, step), n) == PhaseOf(s, n) && Queued(Next(s, step), n) == Queued(s, n);
    } else if step.Submit? || step.Take? {
      assert step.Take? ==> Queued(s, n) == [Queued(s, n)[0]] + Queued(s, n)[1..];
    } else {
      assert Queued(Next(s, step), n) == Queued(s, n) by { QueueStays(s, step); }
      hide Queued;
    }
  }

  lemma QueueStays(s: State, step: Step)
    requires Enabled(s, step) && !step.Submit? && !step.Take?
    ensures Queued(Next(s, step), step.name) == Queued(s, step.name)
  {
  }

  lemma OneStep(s: State, step: Step, n: Name)
    requires Enabled(s, step)
    ensures Submitted([step], n) == Entered(step, n)
    ensures ActionsOf(Handled(s, [step], n)) == Disposed(s, step, n)
  {
  }

  lemma StepFifo(s: State, step: Step, n: Name)
    requires Enabled(s, step)
    ensures Pending(s, n) + Submitted([step], n) == ActionsOf(Handled(s, [step], n)) + Pending(Next(s, step), n)
  {
    hide *;
    PendingMoves(s, step, n);
    OneStep(s, step, n);
  }

  // Each action is handled exactly once and in submission order, whatever fails.
  lemma {:induction false} Fifo(s: State, steps: seq<Step>, n: Name)
    requires IsRun(s, steps)
    ensures Pending(s, n) + Submitted(steps, n) == ActionsOf(Handled(s, steps, n)) + Pending(After(s, steps), n)
    decreases steps
  {
    hide Pending, Submitted, Handled, ActionsOf, Enabled, Next;
    if steps == [] {
      NoSteps(s, n);
    } else {
      var s', rest := Next(s, steps[0]), steps[1..];
      StepFifo(s, steps[0], n);
      Fifo(s', rest, n);
      FirstStep(s, steps, n);
      Regroup(Pending(s, n), Submitted([steps[0]], n), Submitted(rest, n), Pending(s', n),
              ActionsOf(Handled(s, [steps[0]], n)), ActionsOf(Handled(s', rest, n)), Pending(After(s', rest), n));
    }
  }

  lemma Regroup<T>(p: seq<T>, u: seq<T>, v: seq<T>, p': seq<T>, h: seq<T>, k: seq<T>, q: seq<T>)
    requires p + u == h + p' && p' + v == k + q
    ensures p + (u + v) == (h + k) + q
  {
    assert p + (u + v) == (p + u) + v == h + (p' + v);
  }

  lemma NoSteps(s: State, n: Name)
    ensures Submitted([], n) == [] && ActionsOf(Handled(s, [], n)) == []
  {
  }

  lemma FirstStep(s: State, steps: seq<Step>, n: Name)
    requires steps != [] && IsRun(s, steps)
    ensures IsRun(s, [steps[0]]) && IsRun(Next(s, steps[0]), steps[1..])
    ensures Submitted(steps, n) == Submitted([steps[0]], n) + Submitted(steps[1..], n)
    ensures ActionsOf(Handled(s, steps, n)) == ActionsOf(Handled(s, [steps[0]], n)) + ActionsOf(Handled(Next(s, steps[0]), steps[1..], n))
    ensures After(s, steps) == After(Next(s, steps[0]), steps[1..])
  {
    hide Enabled, Next;
    assert [steps[0]][1..] == [];
    assert Handled(Next(s, steps[0]), [], n) == [] && Submitted([], n) == [];
    var a, b := Handled(s, [steps[0]], n), Handled(Next(s, steps[0]), steps[1..], n);
    assert Handled(s, steps, n) == a + b;
    assert ActionsOf(a + b) == ActionsOf(a) + ActionsOf(b);
  }

  // ---------------------------------------------------------------------------
  // Termination

  // Steps that an action still has ahead of it.
  function Cost(a: Action): nat { 2 * |Locks(a)| + 4 }

  function CostOf(queue: seq<Action>): nat {
    if queue == [] then 0 else Cost(queue[0]) + CostOf(queue[1..])
  }

  function Left(p: Phase): nat
    requires Sound(p)
  {
    match p
    case Idle => 0
    case Locking(a, h) => 2 * |Locks(a)| - h + 3
    case Running(a) => |Locks(a)| + 2
    case Unlocking(_, h) => h + 1
  }

  function WorkOf(w: Worker): nat {
    CostOf(w.queue) + if Sound(w.phase) then Left(w.phase) else 0
  }

  ghost function Work(workers: map<Name, Worker>): nat {
    if workers == map[] then 0
    else
      var n :| n in workers;
      WorkOf(workers[n]) + Work(workers - {n})
  }

  lemma {:induction false} WorkAt(workers: map<Name, Worker>, n: Name)
    requires n in workers
    ensures Work(workers) == WorkOf(workers[n]) + Work(workers - {n})
  {
    hide WorkOf;
    var m :| m in workers && Work(workers) == WorkOf(workers[m]) + Work(workers - {m});
    if m != n {
      WorkAt(workers - {m}, n);
      WorkAt(workers - {n}, m);
      assert workers - {m} - {n} == workers - {n} - {m};
    }
  }

  lemma WorkWith(workers: map<Name, Worker>, n: Name, w: Worker)
    requires n in workers
    ensures Work(workers[n := w]) + WorkOf(workers[n]) == Work(workers) + WorkOf(w)
  {
    hide WorkOf;
    WorkAt(workers, n);
    WorkAt(workers[n := w], n);
    assert workers[n := w] - {n} == workers - {n};
  }

  lemma StepSpends(s: State, step: Step)
    requires Inv(s) && Enabled(s, step) && !step.Submit?
    ensures Work(Next(s, step).workers) < Work(s.workers)
  {
    var n := step.name;
    var w, w' := s.workers[n], Next(s, step).workers[n];
    assert Sound(PhaseOf(s, n));
    assert Next(s, step).workers == s.workers[n := w'];
    assert WorkOf(w') < WorkOf(w) by { hide Inv, Locks; }
    hide *;
    WorkWith(s.workers, n, w');
  }

  // Without new submissions a run is no longer than the work it starts with.
  lemma {:induction false} RunsAreShort(s: State, steps: seq<Step>)
    requires Inv(s) && IsRun(s, steps)
    requires forall i :: 0 <= i < |steps| ==> !steps[i].Submit?
    ensures |steps| + Work(After(s, steps).workers) <= Work(s.workers)
    decreases steps
  {
    hide Inv, Enabled, Next;
    if steps != [] {
      StepKeeps(s, steps[0]);
      StepSpends(s, steps[0]);
      RunsAreShort(Next(s, steps[0]), steps[1..]);
    }
  }

  predicate Finished(s: State) {
    s.owner == map[] && forall n :: n in s.workers ==> s.workers[n] == Worker([], Idle)
  }

  // However the workers are scheduled, once submissions stop and runners end, the workers
  // stop only when every queue is empty and every lock is free.
  lemma EveryRunFinishes(s: State, steps: seq<Step>)
    requires Inv(s) && IsRun(s, steps)
    requires forall i :: 0 <= i < |steps| ==> !steps[i].Submit?
    requires forall step :: Enabled(After(s, steps), step) ==> !Advances(step)
    ensures |steps| <= Work(s.workers)
    ensures Finished(After(s, steps))
  {
    RunsAreShort(s, steps);
    RunKeeps(s, steps);
    hide IsRun, After, Locks;
    var t := After(s, steps);
    forall n
      ensures !Busy(t, n)
    {
      if Busy(t, n) { var step := SomeoneAdvances(t, n); }
    }
    forall r
      ensures r !in t.owner
    {
      if r in t.owner { OwnersAreBusy(t, r); }
    }
    assert t.owner.Keys == {};
    forall n | n in t.workers
      ensures t.workers[n] == Worker([], Idle)
    {
      assert !Busy(t, n);
    }
  }

  lemma OwnersAreBusy(s: State, r: Row)
    requires Inv(s) && r in s.owner
    ensures Busy(s, s.owner[r])
  {
    assert Owns(s, s.owner[r], r);
  }

  // Then every action of a project was handled, once and in order.
  lemma OnceSubmittedHandled(s: State, steps: seq<Step>, n: Name)
    requires IsRun(s, steps) && Finished(After(s, steps))
    ensures ActionsOf(Handled(s, steps, n)) == Pending(s, n) + Submitted(steps, n)
  {
    Fifo(s, steps, n);
    assert Pending(After(s, steps), n) == [];
  }
}
