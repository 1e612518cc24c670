// Project actions: one queue and one worker per project name, and advisory locks on the
// project rows that an action touches, taken one at a time in a single order.
module ActionQueue {
  import opened Prelude

  // Project rows, numbered in the order of their printed identifiers.  The lock key of a
  // row is the row itself, its hash being taken as injective.
  type Row = nat

  type Name = string

  predicate Ascending(s: seq<Row>) {
    forall i, j :: 0 <= i < j < |s| ==> s[i] < s[j]
  }

  // ---------------------------------------------------------------------------
  // The order in which an action takes its locks

  function Least(rows: set<Row>): (least: Row)
    requires rows != {}
    ensures least in rows && forall r :: r in rows ==> least <= r
  {
    LeastExists(rows);
    var least :| least in rows && forall r :: r in rows ==> least <= r;
    least
  }

  lemma LeastExists(rows: set<Row>)
    requires rows != {}
    ensures exists least :: least in rows && forall r :: r in rows ==> least <= r
  {
    var x :| x in rows;
    LeastBelow(rows, x);
  }

  lemma {:induction false} LeastBelow(rows: set<Row>, x: Row)
    requires x in rows
    ensures exists least :: least in rows && forall r :: r in rows ==> least <= r
    decreases x
  {
    if y :| y in rows && y < x {
      LeastBelow(rows, y);
    }
  }

  // Each row once, whatever is repeated in the request, in ascending order.
  function Sorted(rows: set<Row>): (s: seq<Row>)
    ensures Ascending(s)
    ensures forall r :: r in s <==> r in rows
  {
    if rows == {} then [] else
      var least := Least(rows);
      [least] + Sorted(rows - {least})
  }

  datatype Action = Action(job: nat, project: Row, additional: seq<Row>)

  function Locks(a: Action): seq<Row> {
    Sorted({a.project} + set r | r in a.additional)
  }

  // ---------------------------------------------------------------------------
  // Workers and locks

  // Where a worker stands: `held` counts the locks it has, which are the first ones of
  // its action in lock order.
  datatype Phase =
    | Idle
    | Locking(action: Action, held: nat)
    | Running(action: Action)
    | Unlocking(action: Action, held: nat)

  datatype Worker = Worker(queue: seq<Action>, phase: Phase)

  datatype State = State(workers: map<Name, Worker>, owner: map<Row, Name>)

  datatype Step =
    | Submit(name: Name, action: Action)
    | Take(name: Name)
    | Lock(name: Name)
    | LockFails(name: Name)
    | Run(name: Name)
    | RunnerEnds(name: Name)
    | Unlock(name: Name)
    | Done(name: Name)

  const START := State(map[], map[])

  predicate Enabled(s: State, step: Step) {
    if step.Submit? then true
    else
      step.name in s.workers &&
      var w := s.workers[step.name];
      match step
      case Submit(_, _) => true
      case Take(_) => w.phase.Idle? && w.queue != []
      // The call returns once no other session holds the key.
      case Lock(_) => w.phase.Locking? && w.phase.held < |Locks(w.phase.action)|
        && Locks(w.phase.action)[w.phase.held] !in s.owner
      case LockFails(_) => w.phase.Locking?
      case Run(_) => w.phase.Locking? && w.phase.held == |Locks(w.phase.action)|
      case RunnerEnds(_) => w.phase.Running?
      case Unlock(_) => w.phase.Unlocking? && 0 < w.phase.held <= |Locks(w.phase.action)|
      case Done(_) => w.phase.Unlocking? && w.phase.held == 0
  }

  function Queued(s: State, name: Name): seq<Action> {
    if name in s.workers then s.workers[name].queue else []
  }

  function PhaseOf(s: State, name: Name): Phase {
    if name in s.workers then s.workers[name].phase else Idle
  }

  function Next(s: State, step: Step): State
    requires Enabled(s, step)
  {
    var w := Worker(Queued(s, step.name), PhaseOf(s, step.name));
    match step
    case Submit(n, a) => s.(workers := s.workers[n := w.(queue := w.queue + [a])])
    case Take(n) => s.(workers := s.workers[n := Worker(w.queue[1..], Locking(w.queue[0], 0))])
    case Lock(n) =>
      State(s.workers[n := w.(phase := Locking(w.phase.action, w.phase.held + 1))],
            s.owner[Locks(w.phase.action)[w.phase.held] := n])
    case LockFails(n) => s.(workers := s.workers[n := w.(phase := Unlocking(w.phase.action, w.phase.held))])
    case Run(n) => s.(workers := s.workers[n := w.(phase := Running(w.phase.action))])
    case RunnerEnds(n) =>
      s.(workers := s.workers[n := w.(phase := Unlocking(w.phase.action, |Locks(w.phase.action)|))])
    case Unlock(n) =>
      State(s.workers[n := w.(phase := Unlocking(w.phase.action, w.phase.held - 1))],
            s.owner - {Locks(w.phase.action)[w.phase.held - 1]})
    case Done(n) => s.(workers := s.workers[n := w.(phase := Idle)])
  }

  // ---------------------------------------------------------------------------
  // What every step keeps

  function HeldCount(p: Phase): nat {
    match p
    case Idle => 0
    case Locking(_, n) => n
    case Running(a) => |Locks(a)|
    case Unlocking(_, n) => n
  }

  predicate Sound(p: Phase) {
    !p.Idle? ==> HeldCount(p) <= |Locks(p.action)|
  }

  function Held(p: Phase): seq<Row>
    requires Sound(p)
  {
    if p.Idle? then [] else Locks(p.action)[..HeldCount(p)]
  }

  predicate Owns(s: State, n: Name, r: Row) { r in s.owner && s.owner[r] == n }

  // A row is owned exactly by the worker whose phase holds it.
  ghost predicate Inv(s: State) {
    && (forall n :: Sound(PhaseOf(s, n)))
    && (forall n, r :: Owns(s, n, r) <==> r in Held(PhaseOf(s, n)))
  }

  lemma OneMoreHeld(a: Action, k: nat)
    requires k < |Locks(a)|
    ensures forall r :: r in Locks(a)[..k + 1] <==> r in Locks(a)[..k] || r == Locks(a)[k]
    ensures Locks(a)[k] !in Locks(a)[..k]
  {
  }


  // Replacing one worker's entry keeps the correspondence when its locks follow.
  lemma WorkerChanges(s: State, s': State, n: Name, w: Worker)
    requires Inv(s) && Sound(w.phase) && s'.workers == s.workers[n := w]
    requires forall r :: Owns(s', n, r) <==> r in Held(w.phase)
    requires forall r, m :: m != n ==> (Owns(s', m, r) <==> Owns(s, m, r))
    ensures Inv(s')
  {
    hide Held, Sound, Owns;
    forall m
      ensures Sound(PhaseOf(s', m)) && forall r :: Owns(s', m, r) <==> r in Held(PhaseOf(s', m))
    {
      if m != n { assert PhaseOf(s', m) == PhaseOf(s, m); }
    }
  }

  // After a step the worker's phase holds exactly the rows that the lock table gives it.
  lemma HeldFollows(s: State, step: Step, r: Row)
    requires Inv(s) && Enabled(s, step)
    ensures Owns(Next(s, step), step.name, r) <==> r in Held(Next(s, step).workers[step.name].phase)
  {
    hide Locks;
    var p := PhaseOf(s, step.name);
    assert Owns(s, step.name, r) <==> r in Held(p);
    match step
    case Lock(n) => OneMoreHeld(p.action, p.held);
    case Unlock(n) => OneMoreHeld(p.action, p.held - 1);
    case _ =>
  }

  lemma OthersUntouched(s: State, step: Step, r: Row, m: Name)
    requires Inv(s) && Enabled(s, step) && m != step.name
    ensures Owns(Next(s, step), m, r) <==> Owns(s, m, r)
  {
    hide Locks, Ascending;
    if step.Unlock? {
      var p := PhaseOf(s, step.name);
      OneMoreHeld(p.action, p.held - 1);
      assert Owns(s, step.name, Locks(p.action)[p.held - 1]);
    }
  }

  lemma StepKeeps(s: State, step: Step)
    requires Inv(s) && Enabled(s, step)
    ensures Inv(Next(s, step))
  {
    var n, s' := step.name, Next(s, step);
    var w := s'.workers[n];
    assert s'.workers == s.workers[n := w];
    forall r ensures Owns(s', n, r) <==> r in Held(w.phase) { HeldFollows(s, step, r); }
    forall r, m | m != n ensures Owns(s', m, r) <==> Owns(s, m, r) { OthersUntouched(s, step, r, m); }
    hide Locks, Inv, Held, Owns;
    WorkerChanges(s, s', n, w);
  }

  // ---------------------------------------------------------------------------
  // Mutual exclusion and waiting

  // The rows that an action works on: its own project, and the additional ones it names.
  ghost predicate Touches(a: Action, r: Row) { r == a.project || r in a.additional }

  lemma LocksTouch(a: Action, r: Row)
    ensures r in Locks(a) <==> Touches(a, r)
  {
  }

  // A worker owns rows of its action only, and always the lowest of them: it took them in
  // ascending order and gives them back in descending order.
  lemma OwnsLowest(s: State, n: Name, r: Row)
    requires Inv(s) && Owns(s, n, r)
    ensures !PhaseOf(s, n).Idle? && Touches(PhaseOf(s, n).action, r)
    ensures forall q: Row :: Touches(PhaseOf(s, n).action, q) && q < r ==> Owns(s, n, q)
  {
    var p := PhaseOf(s, n);
    assert r in Held(p);
    LocksTouch(p.action, r);
    forall q: Row | Touches(p.action, q) && q < r
      ensures Owns(s, n, q)
    {
      LocksTouch(p.action, q);
      hide Locks;
      assert q in Held(p);
    }
  }

  // What a worker holds at each point, on the rows themselves.
  lemma OwnsExactly(s: State, n: Name, r: Row)
    requires Inv(s)
    ensures PhaseOf(s, n).Running? || (PhaseOf(s, n).Locking? && !Wanting(PhaseOf(s, n))) ==>
      (Owns(s, n, r) <==> Touches(PhaseOf(s, n).action, r))
    ensures Wanting(PhaseOf(s, n)) ==>
      && Touches(PhaseOf(s, n).action, Wanted(PhaseOf(s, n)))
      && (Owns(s, n, r) <==> Touches(PhaseOf(s, n).action, r) && r < Wanted(PhaseOf(s, n)))
  {
    var p := PhaseOf(s, n);
    assert Sound(p);
    if !p.Idle? {
      LocksTouch(p.action, r);
      if Wanting(p) { LocksTouch(p.action, Wanted(p)); }
      hide Locks, Touches;
      assert Owns(s, n, r) <==> r in Held(p);
      if Wanting(p) { PrefixIsBelow(p.action, p.held, r); }
    }
  }

  lemma PrefixIsBelow(a: Action, k: nat, r: Row)
    requires k < |Locks(a)|
    ensures r in Locks(a)[..k] <==> r in Locks(a) && r < Locks(a)[k]
  {
    assert Ascending(Locks(a));
    hide Locks;
  }

  // Two runners that touch a common row never execute together.
  lemma MutualExclusion(s: State, n: Name, m: Name, r: Row)
    requires Inv(s) && n != m
    requires PhaseOf(s, n).Running? && Touches(PhaseOf(s, n).action, r)
    ensures Owns(s, n, r)
    ensures PhaseOf(s, m).Running? ==> r != PhaseOf(s, m).action.project && r !in PhaseOf(s, m).action.additional
  {
    OwnsExactly(s, n, r);
    OwnsExactly(s, m, r);
    hide Inv, Wanted, Wanting;
  }

  predicate Wanting(p: Phase) { p.Locking? && p.held < |Locks(p.action)| }

  function Wanted(p: Phase): Row
    requires Wanting(p)
  {
    Locks(p.action)[p.held]
  }

  // Worker n waits for a lock that worker m holds.
  predicate Waits(s: State, n: Name, m: Name) {
    Wanting(PhaseOf(s, n)) && Owns(s, m, Wanted(PhaseOf(s, n)))
  }

  // Each worker waits for the next one.
  predicate Chain(s: State, chain: seq<Name>) {
    |chain| >= 2 ==> Waits(s, chain[0], chain[1]) && Chain(s, chain[1..])
  }

  // Along a chain of waits the rows wanted ascend.
  lemma WantsHigher(s: State, n: Name, m: Name)
    requires Inv(s) && Waits(s, n, m) && Wanting(PhaseOf(s, m))
    ensures Wanted(PhaseOf(s, n)) < Wanted(PhaseOf(s, m))
  {
  }

  lemma {:induction false} ChainAscends(s: State, chain: seq<Name>)
    requires Inv(s) && |chain| >= 2 && Chain(s, chain) && Wanting(PhaseOf(s, chain[|chain| - 1]))
    ensures Wanting(PhaseOf(s, chain[0]))
    ensures Wanted(PhaseOf(s, chain[0])) < Wanted(PhaseOf(s, chain[|chain| - 1]))
  {
    hide Inv, Wanted, PhaseOf, Owns;
    if |chain| > 2 {
      ChainAscends(s, chain[1..]);
    }
    WantsHigher(s, chain[0], chain[1]);
  }

  // No workers wait in a circle.
  lemma NoCircularWait(s: State, chain: seq<Name>)
    requires Inv(s) && |chain| >= 2 && Chain(s, chain)
    ensures chain[0] != chain[|chain| - 1]
  {
    if chain[0] == chain[|chain| - 1] {
      ChainAscends(s, chain);
    }
  }

  // ---------------------------------------------------------------------------
  // Progress

  predicate Busy(s: State, n: Name) {
    n in s.workers && (!s.workers[n].phase.Idle? || s.workers[n].queue != [])
  }

  // A step that a worker takes when nothing goes wrong.
  predicate Advances(step: Step) { !step.Submit? && !step.LockFails? }

  function RowsFrom(s: State, r: Row): set<Row> { set x | x in s.owner && x >= r }

  // The holder of a wanted row has work, and if it is blocked too it wants a higher row.
  lemma BlockedOn(s: State, n: Name, m: Name)
    requires Inv(s) && Waits(s, n, m)
    ensures Busy(s, m)
    ensures Wanting(PhaseOf(s, m)) ==>
      RowsFrom(s, Wanted(PhaseOf(s, m))) < RowsFrom(s, Wanted(PhaseOf(s, n)))
  {
    hide Locks;
    var r := Wanted(PhaseOf(s, n));
    assert r in Held(PhaseOf(s, m));
    if Wanting(PhaseOf(s, m)) {
      WantsHigher(s, n, m);
      assert r in RowsFrom(s, r) && r !in RowsFrom(s, Wanted(PhaseOf(s, m)));
    }
  }

  lemma {:induction false} SmallerSet<T>(a: set<T>, b: set<T>)
    ensures a <= b ==> |a| <= |b|
    ensures a < b ==> |a| < |b|
  {
    if a <= b { assert b == a + (b - a); }
  }

  // While some worker has work, some worker can step: a blocked worker's lock belongs to
  // one that either steps or is itself blocked on a higher row.
  lemma {:induction false} SomeoneAdvances(s: State, n: Name) returns (step: Step)
    requires Inv(s) && Busy(s, n)
    ensures Enabled(s, step) && Advances(step)
    decreases if Wanting(PhaseOf(s, n)) then |RowsFrom(s, Wanted(PhaseOf(s, n)))| + 1 else 0
  {
    hide Locks;
    var p := PhaseOf(s, n);
    assert Sound(p);
    match p
    case Idle => step := Take(n);
    case Running(_) => step := RunnerEnds(n);
    case Unlocking(_, h) => step := if h == 0 then Done(n) else Unlock(n);
    case Locking(a, h) =>
      if h == |Locks(a)| {
        step := Run(n);
      } else if Locks(a)[h] !in s.owner {
        step := Lock(n);
      } else {
        var m := s.owner[Locks(a)[h]];
        BlockedOn(s, n, m);
        if Wanting(PhaseOf(s, m)) { SmallerSet(RowsFrom(s, Wanted(PhaseOf(s, m))), RowsFrom(s, Wanted(p))); }
        step := SomeoneAdvances(s, m);
      }
  }
}
