// Waiting for a command that the host agent executes: guarded updates of the command's row
// by the agent and by any number of waiters, and the polling loop of one waiter.
module CommandWait {
  import opened Prelude

  const EXTRA_MARGIN := 120.0
  const OFFLINE_GRACE := 60.0
  const LEASE_GRACE := 60.0

  datatype Status = Queued | Running | Done | Failed | Cancelled

  datatype Code = QueueWaitTimeout | AgentOffline | LeaseExpired | ApiWaitTimeout | Reported(string)

  datatype Command = Command(status: Status, timeout: nat, worker: Option<string>, leaseExpires: real, code: Option<Code>)

  predicate Terminal(s: Status) { s.Done? || s.Failed? || s.Cancelled? }

  // Queued before running before terminal.
  function Rank(s: Status): nat {
    match s
    case Queued => 0
    case Running => 1
    case _ => 2
  }

  // Every statement that writes the row, with the database's clock.
  datatype Update =
    | Lease(worker: string, seconds: nat, at: real)
    | Heartbeat(worker: string, seconds: nat, at: real)
    | Finish(worker: string, status: Status, reported: Option<Code>)
    | CancelQueued(code: Code)
    | FailRunning(code: Code)

  // Each one names the status it expects, and the agent's also the worker.
  predicate Applies(c: Command, u: Update) {
    match u
    case Lease(_, _, _) => c.status.Queued?
    case Heartbeat(w, _, _) => c.status.Running? && c.worker == Some(w)
    case Finish(w, s, _) => c.status.Running? && c.worker == Some(w) && Terminal(s)
    case CancelQueued(_) => c.status.Queued?
    case FailRunning(_) => c.status.Running?
  }

  function Updated(c: Command, u: Update): Command {
    if !Applies(c, u) then c
    else
      match u
      case Lease(w, seconds, at) => c.(status := Running, worker := Some(w), leaseExpires := at + seconds as real)
      case Heartbeat(_, seconds, at) => c.(leaseExpires := at + seconds as real)
      case Finish(_, s, code) => c.(status := s, code := code)
      case CancelQueued(code) => c.(status := Cancelled, code := Some(code))
      case FailRunning(code) => c.(status := Failed, code := Some(code))
  }

  // Who may write when, by the command's own status: the queue's head is leased or cancelled,
  // a running command is renewed and reported by the worker of its lease alone, or given up,
  // and everything else changes nothing.
  lemma UpdateExact(c: Command, u: Update)
    ensures Updated(c, u) ==
      if c.status.Queued? && u.Lease? then
        Command(Running, c.timeout, Some(u.worker), u.at + u.seconds as real, c.code)
      else if c.status.Queued? && u.CancelQueued? then
        Command(Cancelled, c.timeout, c.worker, c.leaseExpires, Some(u.code))
      else if c.status.Running? && u.Heartbeat? && c.worker == Some(u.worker) then
        Command(Running, c.timeout, c.worker, u.at + u.seconds as real, c.code)
      else if c.status.Running? && u.Finish? && c.worker == Some(u.worker) && (u.status.Done? || u.status.Failed? || u.status.Cancelled?) then
        Command(u.status, c.timeout, c.worker, c.leaseExpires, u.reported)
      else if c.status.Running? && u.FailRunning? then
        Command(Failed, c.timeout, c.worker, c.leaseExpires, Some(u.code))
      else c
  {
  }

  function AfterAll(c: Command, us: seq<Update>): Command
    decreases us
  {
    if us == [] then c else AfterAll(Updated(c, us[0]), us[1..])
  }

  // A queued command belongs to no worker.
  predicate Unclaimed(c: Command) { c.status.Queued? ==> c.worker.None? }

  // Later in the life of the same command.
  predicate Forward(a: Command, b: Command) {
    && (b.status.Queued? ==> a.status.Queued?)
    && (b.status.Running? ==> a.status.Queued? || a.status.Running?)
    && (Terminal(a.status) ==> b == a)
    && b.timeout == a.timeout
    && (Unclaimed(a) ==> Unclaimed(b))
    && (a.worker.Some? ==> b.worker == a.worker)
  }

  // Whatever races whatever, a command only moves forward, keeps the worker that took it,
  // and once it is terminal no update changes anything in it.
  lemma {:induction false} OnlyForward(c: Command, us: seq<Update>)
    requires Unclaimed(c)
    ensures Forward(c, AfterAll(c, us))
    decreases us
  {
    if us != [] {
      OnlyForward(Updated(c, us[0]), us[1..]);
    }
  }

  // The first update that ends a command decides its outcome.
  lemma {:induction false} FirstEndWins(c: Command, before: seq<Update>, after: seq<Update>)
    requires Terminal(AfterAll(c, before).status)
    ensures AfterAll(c, before + after) == AfterAll(c, before)
    decreases before, after
  {
    if before == [] {
      assert before + after == after;
      if after != [] {
        assert Updated(c, after[0]) == c;
        FirstEndWins(c, [], after[1..]);
        assert [] + after[1..] == after[1..];
      }
    } else {
      assert (before + after)[1..] == before[1..] + after;
      FirstEndWins(Updated(c, before[0]), before[1..], after);
    }
  }

  // A command cancelled in the queue never reached a worker and never will.
  lemma CancelledInQueueNeverRuns(c: Command, code: Code, us: seq<Update>)
    requires Unclaimed(c) && c.status.Queued?
    ensures AfterAll(Updated(c, CancelQueued(code)), us) == c.(status := Cancelled, code := Some(code))
    ensures c.worker.None?
  {
  }

  // A command that ran was leased, and only the worker of that lease reports its end.
  lemma {:induction false} EndedByItsWorker(c: Command, us: seq<Update>) returns (w: string, i: nat, j: nat)
    requires c.status.Queued? && Unclaimed(c) && AfterAll(c, us).status.Done?
    ensures i < j < |us| && us[i].Lease? && us[j].Finish? && us[j].status.Done?
    ensures us[i].worker == w == us[j].worker && AfterAll(c, us).worker == Some(w) && AfterAll(c, us).code == us[j].reported
    decreases us
  {
    i := 0;
    var c' := Updated(c, us[0]);
    if us[0].Lease? {
      w := us[0].worker;
      var k := ReportedByHolder(c', us[1..], w);
      j := k + 1;
    } else {
      if c'.status.Cancelled? { OnlyForward(c', us[1..]); }
      w, i, j := EndedByItsWorker(c', us[1..]);
      i, j := i + 1, j + 1;
    }
  }

  lemma {:induction false} ReportedByHolder(c: Command, us: seq<Update>, w: string) returns (j: nat)
    requires c.status.Running? && c.worker == Some(w) && AfterAll(c, us).status.Done?
    ensures j < |us| && us[j].Finish? && us[j].status.Done? && us[j].worker == w
    ensures AfterAll(c, us).worker == Some(w) && AfterAll(c, us).code == us[j].reported
    decreases us
  {
    var c' := Updated(c, us[0]);
    if c'.status.Running? {
      var k := ReportedByHolder(c', us[1..], w);
      j := k + 1;
    } else {
      OnlyForward(c', us[1..]);
      j := 0;
    }
  }

  // The lease of a running command is the one that its worker took or renewed last.
  lemma {:induction false} LeaseIsItsWorkers(c: Command, us: seq<Update>) returns (i: nat)
    requires c.status.Queued? && Unclaimed(c) && AfterAll(c, us).status.Running?
    ensures var d := AfterAll(c, us);
      && i < |us| && (us[i].Lease? || us[i].Heartbeat?) && d.worker == Some(us[i].worker)
      && d.leaseExpires == us[i].at + us[i].seconds as real
      && forall k :: i < k < |us| && us[k].Heartbeat? ==> us[k].worker != us[i].worker
    decreases |us|
  {
    var n := |us| - 1;
    assert us == us[..n] + [us[n]];
    AfterMore(c, us[..n], us[n]);
    var b := AfterAll(c, us[..n]);
    OnlyForward(c, us[..n]);
    if b.status.Running? && !(us[n].Heartbeat? && b.worker == Some(us[n].worker)) {
      i := LeaseIsItsWorkers(c, us[..n]);
    } else {
      i := n;
    }
  }

  lemma {:induction false} AfterMore(c: Command, us: seq<Update>, u: Update)
    ensures AfterAll(c, us + [u]) == Updated(AfterAll(c, us), u)
    decreases us
  {
    if us == [] {
      assert [u][1..] == [];
    } else {
      assert (us + [u])[1..] == us[1..] + [u];
      AfterMore(Updated(c, us[0]), us[1..], u);
    }
  }

  // ---------------------------------------------------------------------------
  // The database as one waiter sees it

  // What a waiter had seen when it ended the command: polls of the status, a running command's
  // lease that had run out, or checks of the agents' life.
  datatype Why =
    | Waited(polls: seq<(real, Status)>, first: nat)
    | Lapsed(seen: Command, at: real)
    | Silent(checks: seq<(real, bool)>, since: nat)

  // Every poll from `first` on saw the same status, and the one before it another.
  ghost predicate Streak(polls: seq<(real, Status)>, first: nat) {
    && first < |polls|
    && (forall k :: first <= k < |polls| ==> polls[k].1 == polls[first].1)
    && (first > 0 ==> polls[first - 1].1 != polls[first].1)
  }

  // The last status seen had been so for longer than the timeout and two minutes.
  ghost predicate TooLong(polls: seq<(real, Status)>, first: nat, timeout: nat) {
    Streak(polls, first) && polls[|polls| - 1].0 > polls[first].0 + timeout as real + 120.0
  }

  // No check from `since` on found an agent alive, and they span more than a minute.
  ghost predicate NobodyAlive(checks: seq<(real, bool)>, since: nat) {
    && since < |checks| && (forall k :: since <= k < |checks| ==> !checks[k].1)
    && checks[|checks| - 1].0 > checks[since].0 + 60.0
  }

  // A waiter ends a command in these four ways, for these reasons, and changes it in no other.
  ghost predicate Justified(u: Update, why: Why, timeout: nat) {
    match u
    case CancelQueued(QueueWaitTimeout) => why.Waited? && TooLong(why.polls, why.first, timeout) && why.polls[why.first].1.Queued?
    case FailRunning(ApiWaitTimeout) => why.Waited? && TooLong(why.polls, why.first, timeout) && why.polls[why.first].1.Running?
    case FailRunning(LeaseExpired) => why.Lapsed? && why.seen.status.Running? && why.seen.leaseExpires + 60.0 < why.at
    case CancelQueued(AgentOffline) => why.Silent? && NobodyAlive(why.checks, why.since)
    case _ => false
  }

  ghost predicate AllJustified(issued: seq<(Update, Why)>, timeout: nat) {
    forall e :: e in issued ==> Justified(e.0, e.1, timeout)
  }

  // Other parties act, and time passes, while the waiter awaits a statement or sleeps.
  class Database {
    var row: Option<Command>
    var clock: real
    ghost var issued: seq<(Update, Why)>    // the waiter's own updates

    constructor (row: Option<Command>, clock: real)
      ensures this.row == row && this.clock == clock && issued == []
    {
      this.row, this.clock, issued := row, clock, [];
    }

    ghost predicate Sound()
      reads this
    {
      row.Some? ==> Unclaimed(row.value) && AllJustified(issued, row.value.timeout)
    }

    // Between `least` and `most` seconds, with any updates by anyone.
    method Await(least: real, most: real)
      requires Sound() && 0.0 <= least <= most
      modifies this`row, this`clock
      ensures Sound() && old(clock) + least <= clock <= old(clock) + most
      ensures row.Some? <==> old(row).Some?
      ensures row.Some? ==> Forward(old(row.value), row.value)
    {
      var elapsed: real := *;
      clock := clock + if least <= elapsed <= most then elapsed else least;
      if row.Some? {
        var acts: seq<Update> := *;
        OnlyForward(row.value, acts);
        row := Some(AfterAll(row.value, acts));
      }
    }

    // One guarded statement of the waiter; the count of rows it changed.
    method Execute(u: Update, ghost why: Why) returns (changed: nat)
      requires Sound() && row.Some? && Justified(u, why, row.value.timeout)
      requires why.Lapsed? ==> why.at <= clock && Forward(why.seen, row.value)
      modifies this`row, this`issued
      ensures Sound() && row == Some(Updated(old(row.value), u)) && issued == old(issued) + [(u, why)]
      ensures changed == if Applies(old(row.value), u) then 1 else 0
      ensures Forward(old(row.value), row.value)
    {
      changed := if Applies(row.value, u) then 1 else 0;
      OnlyForward(row.value, [u]);
      row, issued := Some(Updated(row.value, u)), issued + [(u, why)];
    }

    method WorkerAlive() returns (alive: bool)
    {
      alive := *;
    }
  }

  datatype Outcome = Finished(command: Command) | Missing | Offline

  // When a wait that began at `start` must be over: both stages of the command have its
  // timeout and the margin, and the loop notices within a few statements and two sleeps.
  function LastMoment(start: real, timeout: nat, poll: real, latency: real): real {
    start + 2.0 * (timeout as real + 120.0) + 2.0 * poll + 20.0 * latency
  }

  function StageRank(seen: Option<Status>): nat {
    if seen.None? then 3 else 2 - Rank(seen.value)
  }

  // Sleeps left before the deadline, counted in reals.
  function PollsLeft(deadline: Option<real>, clock: real, poll: real): real
    requires poll > 0.0
  {
    if deadline.Some? && deadline.value >= clock then (deadline.value - clock) / poll else -1.0
  }

  lemma EachSleepCounts(deadline: real, before: real, after: real, poll: real)
    requires poll > 0.0 && before + poll <= after && before <= deadline
    ensures PollsLeft(Some(deadline), after, poll) <= PollsLeft(Some(deadline), before, poll) - 1.0
    ensures PollsLeft(Some(deadline), before, poll) >= 0.0
  {
    if after <= deadline {
      var a, b := (deadline - after) / poll, (deadline - before) / poll;
      assert a * poll == deadline - after && b * poll == deadline - before;
      Cancel(a + 1.0, b, poll);
    }
    Cancel(0.0, (deadline - before) / poll, poll);
  }

  lemma Cancel(a: real, b: real, c: real)
    requires c > 0.0 && a * c <= b * c
    ensures a <= b
  {
  }

  // The agents' silence so far, as the checks show it.
  ghost predicate Listening(checks: seq<(real, bool)>, offlineSince: Option<real>, dead: nat) {
    offlineSince.Some? ==>
      dead < |checks| && checks[dead].0 == offlineSince.value && forall k :: dead <= k < |checks| ==> !checks[k].1
  }

  // A command that waits in the queue while no agent has shown life for a minute is given up.
  method WatchQueue(db: Database, now: real, offlineSince: Option<real>, latency: real, ghost checks: seq<(real, bool)>, ghost dead: nat)
      returns (since: Option<real>, gaveUp: bool, ghost checks': seq<(real, bool)>, ghost dead': nat)
    requires db.Sound() && db.row.Some? && latency >= 0.0 && Listening(checks, offlineSince, dead)
    modifies db
    ensures db.Sound() && db.row.Some? && Forward(old(db.row.value), db.row.value)
    ensures old(db.clock) <= db.clock <= old(db.clock) + 2.0 * latency
    ensures since.Some? ==> since == offlineSince || since == Some(now)
    ensures Listening(checks', since, dead')
    ensures db.issued == old(db.issued) || exists why :: db.issued == old(db.issued) + [(CancelQueued(AgentOffline), why)]
    ensures |checks'| == |checks| + 1 && checks'[..|checks|] == checks
    ensures !checks'[|checks|].1 && offlineSince.Some? && now > offlineSince.value + 60.0 ==> !db.row.value.status.Queued?
    ensures gaveUp ==>
      && offlineSince.Some? && now > offlineSince.value + 60.0 && NobodyAlive(checks', dead')
      && db.row.value.worker.None? && db.row.value.status.Cancelled? && db.row.value.code == Some(AgentOffline)
  {
    since, gaveUp, dead' := offlineSince, false, dead;
    db.Await(0.0, latency);
    var alive := db.WorkerAlive();
    checks' := checks + [(now, alive)];
    if alive {
      since := None;
    } else if since.None? {
      since, dead' := Some(now), |checks|;
    } else if now - since.value > OFFLINE_GRACE {
      db.Await(0.0, latency);
      var changed := db.Execute(CancelQueued(AgentOffline), Silent(checks', dead'));
      gaveUp := changed == 1;
    }
  }

  // A running command whose lease lapsed a minute ago has lost its worker.
  method WatchLease(db: Database, latency: real) returns (expired: bool)
    requires db.Sound() && db.row.Some? && latency >= 0.0
    modifies db
    ensures db.Sound() && db.row.Some? && Forward(old(db.row.value), db.row.value)
    ensures old(db.clock) <= db.clock <= old(db.clock) + (if expired then 2.0 else 1.0) * latency
    ensures expired && !old(db.row.value.status).Queued? ==> Terminal(db.row.value.status)
    ensures expired ==> exists why :: db.issued == old(db.issued) + [(FailRunning(LeaseExpired), why)]
    ensures !expired ==> db.issued == old(db.issued) && !(db.row.value.status.Running? && db.row.value.leaseExpires + 60.0 < db.clock)
  {
    db.Await(0.0, latency);
    var seen := db.row.value;
    ghost var at := db.clock;
    expired := seen.status.Running? && seen.leaseExpires < db.clock - LEASE_GRACE;
    if expired {
      db.Await(0.0, latency);
      var _ := db.Execute(FailRunning(LeaseExpired), Lapsed(seen, at));
    }
  }

  lemma SilenceBegins(checks: seq<(real, bool)>, dead: nat)
    ensures Listening(checks, None, dead)
  {
  }

  lemma PollsGrow(polls: seq<(real, Status)>, first: nat, now: real, status: Status)
    requires if first == |polls| then polls != [] ==> polls[|polls| - 1].1 != status
             else Streak(polls, first) && polls[first].1 == status
    ensures Streak(polls + [(now, status)], first)
  {
  }

  lemma WaitedTooLong(polls: seq<(real, Status)>, first: nat, timeout: nat)
    requires Streak(polls, first) && polls[|polls| - 1].0 > polls[first].0 + timeout as real + 120.0
    ensures polls[first].1.Queued? ==> Justified(CancelQueued(QueueWaitTimeout), Waited(polls, first), timeout)
    ensures polls[first].1.Running? ==> Justified(FailRunning(ApiWaitTimeout), Waited(polls, first), timeout)
  {
  }

  // Past the deadline a queued command is cancelled, and a running one fails.
  method CancelIfLate(db: Database, now: real, deadline: real, latency: real, ghost polls: seq<(real, Status)>, ghost first: nat)
      returns (late: bool)
    requires db.Sound() && db.row.Some? && latency >= 0.0 && Streak(polls, first) && polls[first].1.Queued?
    requires polls[|polls| - 1].0 == now && deadline == polls[first].0 + db.row.value.timeout as real + EXTRA_MARGIN
    modifies db
    ensures db.Sound() && db.row.Some? && Forward(old(db.row.value), db.row.value)
    ensures late <==> now > deadline
    ensures old(db.clock) <= db.clock <= old(db.clock) + (if late then latency else 0.0)
    ensures late ==> !db.row.value.status.Queued?
  {
    late := now > deadline;
    if late {
      db.Await(0.0, latency);
      WaitedTooLong(polls, first, db.row.value.timeout);
      var _ := db.Execute(CancelQueued(QueueWaitTimeout), Waited(polls, first));
    }
  }

  method FailIfLate(db: Database, now: real, deadline: real, latency: real, ghost polls: seq<(real, Status)>, ghost first: nat)
      returns (late: bool)
    requires db.Sound() && db.row.Some? && latency >= 0.0 && Streak(polls, first) && polls[first].1.Running?
    requires polls[|polls| - 1].0 == now && deadline == polls[first].0 + db.row.value.timeout as real + EXTRA_MARGIN
    modifies db
    ensures db.Sound() && db.row.Some? && Forward(old(db.row.value), db.row.value)
    ensures late <==> now > deadline
    ensures old(db.clock) <= db.clock <= old(db.clock) + (if late then latency else 0.0)
    ensures late && !old(db.row.value.status).Queued? ==> Terminal(db.row.value.status)
  {
    late := now > deadline;
    if late {
      db.Await(0.0, latency);
      WaitedTooLong(polls, first, db.row.value.timeout);
      var _ := db.Execute(FailRunning(ApiWaitTimeout), Waited(polls, first));
    }
  }

  // `latency` bounds one statement, one callback, and the lateness of a wake-up.  Every
  // update of the waiter is justified by what it had seen.
  method WaitCommand(db: Database, poll: real, latency: real) returns (outcome: Outcome)
    requires db.Sound() && db.issued == [] && poll > 0.0 && latency >= 0.0
    modifies db
    ensures db.Sound() && (db.row.Some? <==> old(db.row).Some?)
    ensures outcome.Missing? <==> old(db.row).None?
    ensures outcome.Missing? ==> db.issued == []
    ensures outcome.Finished? ==> Terminal(outcome.command.status) && db.row == Some(outcome.command)
    ensures outcome.Finished? || outcome.Offline? ==>
      && Forward(old(db.row.value), db.row.value) && AllJustified(db.issued, old(db.row.value.timeout))
      && db.clock <= LastMoment(old(db.clock), db.row.value.timeout, poll, latency)
    ensures outcome.Offline? ==>
      && old(db.row.value.status).Queued? && db.row.value.worker.None?
      && db.row.value.status.Cancelled? && db.row.value.code == Some(AgentOffline)
      && db.clock > old(db.clock) + 60.0
  {
    hide PollsLeft, AllJustified, NobodyAlive, Streak, TooLong, Justified, Listening;
    SilenceBegins([], 0);
    var start := db.clock;
    var offlineSince: Option<real> := None;
    var deadline: Option<real> := None;
    var lastStatus: Option<Status> := None;
    ghost var polls: seq<(real, Status)>, first: nat := [], 0;
    ghost var checks: seq<(real, bool)>, dead: nat := [], 0;
    ghost var limit := if db.row.Some? then db.row.value.timeout as real + EXTRA_MARGIN else 0.0;
    while true
      invariant db.Sound() && (db.row.Some? <==> old(db.row).Some?)
      invariant db.row.None? ==> db.issued == []
      invariant db.row.Some? ==> Forward(old(db.row.value), db.row.value)
      invariant db.row.Some? ==> limit == db.row.value.timeout as real + EXTRA_MARGIN
      invariant deadline.Some? <==> lastStatus.Some?
      invariant start <= db.clock && (lastStatus.None? ==> db.clock == start)
      invariant lastStatus.Some? ==> db.row.Some? && !Terminal(lastStatus.value) && Rank(lastStatus.value) <= Rank(db.row.value.status)
      invariant lastStatus == Some(Queued) ==> deadline.value <= start + limit + 2.0 * latency
      invariant lastStatus == Some(Running) ==> deadline.value <= start + 2.0 * limit + poll + 11.0 * latency
      invariant lastStatus.Some? ==>
        db.clock <= deadline.value + poll + (if db.row.value.status == lastStatus.value then 3.0 else 7.0) * latency
      invariant lastStatus.Some? <==> polls != []
      invariant polls != [] ==> Streak(polls, first) && first < |polls| && polls[|polls| - 1].1 == polls[first].1
      invariant polls != [] ==> polls[first].1 == lastStatus.value && deadline.value == polls[first].0 + limit
      invariant Listening(checks, offlineSince, dead)
      invariant offlineSince.Some? ==> start <= offlineSince.value && old(db.row).Some? && old(db.row.value.status).Queued?
      decreases StageRank(lastStatus),
        if lastStatus.Some? && db.row.Some? && db.row.value.status == lastStatus.value then 1 else 0,
        PollsLeft(deadline, db.clock, poll)
    {
      ghost var head := db.clock;
      db.Await(0.0, latency);
      if db.row.None? { outcome := Missing; return; }
      var row := db.row.value;
      db.Await(0.0, latency);
      if Terminal(row.status) { outcome := Finished(row); return; }
      var now := db.clock;
      if deadline.None? || Some(row.status) != lastStatus {
        deadline := Some(now + row.timeout as real + EXTRA_MARGIN);
        first := |polls|;
      }
      PollsGrow(polls, first, now, row.status);
      lastStatus := Some(row.status);
      polls := polls + [(now, row.status)];
      if row.status.Queued? {
        var late := CancelIfLate(db, now, deadline.value, latency, polls, first);
        if late { continue; }
        var gaveUp;
        offlineSince, gaveUp, checks, dead := WatchQueue(db, now, offlineSince, latency, checks, dead);
        if gaveUp { outcome := Offline; return; }
      } else {
        var expired := WatchLease(db, latency);
        if expired { continue; }
        var late := FailIfLate(db, now, deadline.value, latency, polls, first);
        if late { continue; }
      }
      db.Await(poll, poll + latency);
      if now <= deadline.value { EachSleepCounts(deadline.value, head, db.clock, poll); }
    }
  }
}
