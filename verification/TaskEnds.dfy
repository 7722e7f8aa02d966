/**
 How a task ends: as long as it is there it waits for something that can still happen, and
 every such event brings its end nearer.
 */
module TaskEnds {
  import opened TaskModel
  import opened TaskInv
  import opened TaskSteps
  import opened TaskRuns
  import opened TaskLife

  // ---------------------------------------------------------------- a returned thread has its word queued

  predicate Sent(ds: seq<Sender>, r: nat, thread: nat) {
    exists j :: 0 <= j < |ds| && ds[j].task == r && ds[j].thread == thread
  }

  predicate Reported(ds: seq<Sender>, r: nat, ths: seq<Thread>) {
    forall i :: 0 <= i < |ths| && ths[i].returned ==> Sent(ds, r, ths[i].id)
  }

  /** The converse of what the channel promises: no result of a linked thread is lost. */
  predicate AllReported(s: State) { forall r :: r in s.tasks ==> Reported(s.senders, r, s.tasks[r].threads) }

  /** Tasks other than `r` are as before, and so are their words. */
  lemma {:induction false} OthersReported(s: State, s': State, r: nat)
    requires AllReported(s)
    requires forall x :: x in s'.tasks && x != r ==> x in s.tasks && s'.tasks[x] == s.tasks[x]
    requires forall x, id :: x != r && Sent(s.senders, x, id) ==> Sent(s'.senders, x, id)
    requires r in s'.tasks ==> Reported(s'.senders, r, s'.tasks[r].threads)
    ensures AllReported(s')
  {
  }

  lemma {:induction false} SentAppend(ds: seq<Sender>, d: Sender)
    ensures Sent(ds + [d], d.task, d.thread)
    ensures forall x, id :: Sent(ds, x, id) ==> Sent(ds + [d], x, id)
  {
    var es := ds + [d];
    assert es[|ds|] == d;
    forall x, id | Sent(ds, x, id) ensures Sent(es, x, id) {
      var j :| 0 <= j < |ds| && ds[j].task == x && ds[j].thread == id;
      assert es[j] == ds[j];
    }
  }

  lemma {:induction false} SentTail(ds: seq<Sender>, x: nat, id: nat)
    requires Sent(ds, x, id) && (ds[0].task != x || ds[0].thread != id)
    ensures Sent(ds[1..], x, id)
  {
    var j :| 0 <= j < |ds| && ds[j].task == x && ds[j].thread == id;
    assert ds[1..][j - 1] == ds[j];
  }

  lemma {:induction false} ReturnReported(s: State, r: nat, i: nat, ret: nat)
    requires r in s.tasks && i < |s.tasks[r].threads| && AllReported(s)
    ensures AllReported(Return(s, r, i, ret))
  {
    var s', ths := Return(s, r, i, ret), s.tasks[r].threads;
    SentAppend(s.senders, Sender(r, ths[i].id, ret));
    assert Reported(s'.senders, r, s'.tasks[r].threads) by {
      assert Reported(s.senders, r, ths);
    }
    OthersReported(s, s', r);
  }

  lemma {:induction false} StartReported(s: State, r: nat)
    requires r in s.tasks && AllReported(s)
    ensures AllReported(StartTask(s, r))
  {
    var t := s.tasks[r];
    assert Reported(s.senders, r, t.threads);
    AddThreadsForm(t.(running := true), t.routes);
    OthersReported(s, StartTask(s, r), r);
  }

  lemma {:induction false} FireReported(s: State, i: nat)
    requires AllReported(s) && i < |s.sched.requests| && Live(s, s.sched.requests[i].data)
    ensures AllReported(Fire(s, i))
  {
    var r := s.sched.requests[i].data.task;
    assert Reported(s.senders, r, s.tasks[r].threads);
    OthersReported(s, Fire(s, i), r);
  }

  lemma {:induction false} CreateReported(s: State, routes: seq<nat>)
    requires AllReported(s)
    ensures AllReported(Create(s, routes))
  {
    OthersReported(s, Create(s, routes), s.nextRef);
  }

  /** A word takes its sender and the thread along. */
  ghost predicate TakesThread(s: State, s': State, r: nat, i: nat)
    requires r in s.tasks && i < |s.tasks[r].threads| && s.senders != []
  {
    && s'.senders == s.senders[1..]
    && (forall x :: x in s'.tasks && x != r ==> x in s.tasks && s'.tasks[x] == s.tasks[x])
    && (r in s'.tasks ==> s'.tasks[r].threads == s.tasks[r].threads[..i] + s.tasks[r].threads[i + 1..])
  }

  lemma {:induction false} HandleTakes(lim: Limits, s: State, seconds: nat)
    requires FindsSender(s) && s.senders[0].ret <= 2
    ensures WordTask(s) in s.tasks && WordThread(s) < |s.tasks[WordTask(s)].threads|
    ensures TakesThread(s, Handle(lim, s, seconds), WordTask(s), WordThread(s))
  {
    HandleIs(lim, s, seconds);
    var r, i := WordTask(s), WordThread(s);
    var s' := Handled(lim, Popped(s), r, i, s.senders[0].ret, seconds);
    assert s'.tasks == s.tasks - {r} || s'.tasks == s.tasks[r := s'.tasks[r]];
  }

  lemma {:induction false} TakenReported(s: State, s': State, r: nat, i: nat)
    requires AllReported(s) && r in s.tasks && i < |s.tasks[r].threads| && s.senders != [] && ThreadsOk(s.tasks[r])
    requires s.senders[0].task == r && s.senders[0].thread == s.tasks[r].threads[i].id && TakesThread(s, s', r, i)
    ensures AllReported(s')
  {
    var ths := s.tasks[r].threads;
    assert Reported(s.senders, r, ths);
    if r in s'.tasks {
      var us := s'.tasks[r].threads;
      forall k | 0 <= k < |us| && us[k].returned ensures Sent(s'.senders, r, us[k].id) {
        assert us[k] == ths[if k < i then k else k + 1];
        SentTail(s.senders, r, us[k].id);
      }
    }
    forall x, id | x != r && Sent(s.senders, x, id) ensures Sent(s'.senders, x, id) {
      SentTail(s.senders, x, id);
    }
    OthersReported(s, s', r);
  }

  lemma {:induction false} HandleReported(lim: Limits, s: State, seconds: nat)
    requires Inv(lim, s) && Bounded(s) && s.channel != [] && AllReported(s)
    ensures FindsSender(s) && AllReported(Handle(lim, s, seconds))
  {
    WordFindsSender(lim, s);
    assert WordOk(s, s.channel[0], s.senders[0]);
    HandleTakes(lim, s, seconds);
    assert TaskOk(lim, s.tasks[WordTask(s)]);
    TakenReported(s, Handle(lim, s, seconds), WordTask(s), WordThread(s));
  }

  lemma {:induction false} NextReported(lim: Limits, s: State, step: Step)
    requires Inv(lim, s) && Bounded(s) && Enabled(s, step) && Safe(s, step) && AllReported(s)
    ensures AllReported(Next(lim, s, step))
  {
    match step
    case New(routes) => CreateReported(s, routes);
    case NewDirect(routes) => CreateReported(s, routes);
    case Begin(r) => StartReported(s, r);
    case Returns(r, i, ret) => ReturnReported(s, r, i, ret);
    case Word(seconds) => HandleReported(lim, s, seconds);
    case Timer(i) => FireReported(s, i);
    case Frame =>
    case Tick =>
  }

  lemma {:induction false} ReportedAlways(lim: Limits, ss: seq<State>, steps: seq<Step>, n: nat)
    requires IsRun(lim, ss, steps) && n <= |steps|
    ensures AllReported(ss[n])
    decreases n
  {
    if n > 0 {
      ReportedAlways(lim, ss, steps, n - 1);
      InvAlways(lim, ss, steps, n - 1);
      RunStep(lim, ss, steps, n - 1);
      NextReported(lim, ss[n - 1], steps[n - 1]);
    }
  }

  // ---------------------------------------------------------------- something can still happen

  predicate AtWork(t: Task) { exists i :: 0 <= i < |t.threads| && !t.threads[i].returned }

  predicate HasWord(s: State, r: nat) { exists j :: 0 <= j < |s.senders| && s.senders[j].task == r }

  /** A thread that has not returned, a word in the channel, or a request that is scheduled. */
  ghost predicate Alive(s: State, r: nat)
    requires r in s.tasks
  {
    AtWork(s.tasks[r]) || HasWord(s, r) || Awaited(s, r)
  }

  lemma {:induction false} BusyIsAlive(s: State, r: nat)
    requires Busy(s) && AllReported(s) && r in s.tasks && s.tasks[r].running && s.tasks[r].routes != []
    ensures Alive(s, r)
  {
    var ths := s.tasks[r].threads;
    if ths != [] && ths[0].returned {
      assert Reported(s.senders, r, ths) && Sent(s.senders, r, ths[0].id);
    }
  }

  /**
   In every run a started task with routes has a thread that has not returned, a word in the
   channel or a request that is scheduled: once none of these is left the task is gone.
   */
  lemma {:induction false} NeverStuck(lim: Limits, ss: seq<State>, steps: seq<Step>, n: nat, r: nat)
    requires IsRun(lim, ss, steps) && n <= |steps|
    requires r in ss[n].tasks && ss[n].tasks[r].running && ss[n].tasks[r].routes != []
    ensures Alive(ss[n], r)
  {
    BusyAlways(lim, ss, steps, n);
    ReportedAlways(lim, ss, steps, n);
    BusyIsAlive(ss[n], r);
  }

  // ---------------------------------------------------------------- every event brings the end nearer

  /** The threads that have not returned. */
  function Working(ths: seq<Thread>): (n: nat) {
    if ths == [] then 0 else Working(ths[1..]) + if ths[0].returned then 0 else 1
  }

  lemma {:induction false} WorkingSplit(a: seq<Thread>, b: seq<Thread>)
    ensures Working(a + b) == Working(a) + Working(b)
    decreases |a|
  {
    if a == [] {
      assert a + b == b;
    } else {
      assert (a + b)[1..] == a[1..] + b;
      WorkingSplit(a[1..], b);
    }
  }

  lemma {:induction false} WorkingAt(ths: seq<Thread>, i: nat)
    requires i < |ths|
    ensures Working(ths) == Working(ths[..i]) + Working(ths[i + 1..]) + if ths[i].returned then 0 else 1
  {
    assert ths == ths[..i] + ths[i..] && ths[i..][1..] == ths[i + 1..];
    WorkingSplit(ths[..i], ths[i..]);
  }

  /**
   What is left for the task: three events for each thread it may still get, two for a
   thread that has not returned, one for a thread whose word has not been handled.
   */
  function Left(lim: Limits, t: Task): (n: int) {
    3 * (Budget(lim, t.routes) - |t.started|) + |t.threads| + Working(t.threads)
  }

  /** A thread of the task returns, a word of it is handled, or a timer of it goes off. */
  predicate IsOwn(s: State, step: Step, r: nat) {
    IsWordOf(s, step, r) || IsFireOf(s, step, r) || (step.Returns? && step.task == r)
  }

  lemma {:induction false} ReturnLeft(lim: Limits, s: State, r: nat, i: nat, ret: nat)
    requires r in s.tasks && i < |s.tasks[r].threads| && !s.tasks[r].threads[i].returned
    ensures Left(lim, Return(s, r, i, ret).tasks[r]) == Left(lim, s.tasks[r]) - 1
  {
    var ths := s.tasks[r].threads;
    var us := Return(s, r, i, ret).tasks[r].threads;
    WorkingAt(ths, i);
    WorkingAt(us, i);
    assert us[..i] == ths[..i] && us[i + 1..] == ths[i + 1..];
  }

  lemma {:induction false} FireLeft(lim: Limits, s: State, i: nat)
    requires i < |s.sched.requests| && Live(s, s.sched.requests[i].data)
    ensures var r := s.sched.requests[i].data.task;
            Left(lim, Fire(s, i).tasks[r]) == Left(lim, s.tasks[r]) - 1
  {
    var p := s.sched.requests[i].data;
    var t := s.tasks[p.task];
    var th := Thread(t.nThreads, t.retries[RetryAt(t.retries, p.id)].out, false);
    WorkingSplit(t.threads, [th]);
  }

  lemma {:induction false} WordLeft(lim: Limits, s: State, seconds: nat)
    requires FindsSender(s) && s.senders[0].ret <= 2
    ensures WordTask(s) in s.tasks
    ensures var r, s' := WordTask(s), Handle(lim, s, seconds);
            r in s'.tasks ==> Left(lim, s'.tasks[r]) == Left(lim, s.tasks[r]) - 1
  {
    HandleTasks(lim, s, seconds);
    HandleTakes(lim, s, seconds);
    WithoutReturned(s.tasks[WordTask(s)].threads, WordThread(s));
  }

  /** Unlinking a returned thread leaves as many at work. */
  lemma {:induction false} WithoutReturned(ths: seq<Thread>, i: nat)
    requires i < |ths| && ths[i].returned
    ensures Working(ths[..i] + ths[i + 1..]) == Working(ths)
  {
    WorkingAt(ths, i);
    WorkingSplit(ths[..i], ths[i + 1..]);
  }

  /** What a step does to the count of a task; `own` tells whether it is an event of the task. */
  predicate CountsDown(lim: Limits, s: State, s': State, r: nat, own: bool) {
    && s.nextRef <= s'.nextRef
    && (r !in s.tasks && r < s.nextRef ==> r !in s'.tasks && !own)
    && (r in s.tasks && s.tasks[r].running && !own ==> r in s'.tasks && s'.tasks[r] == s.tasks[r])
    && (r in s.tasks && s.tasks[r].running && own && r in s'.tasks ==>
          s'.tasks[r].running && Left(lim, s'.tasks[r]) == Left(lim, s.tasks[r]) - 1)
  }

  lemma {:induction false} WordCounts(lim: Limits, s: State, seconds: nat, r: nat)
    requires Inv(lim, s) && Bounded(s) && s.channel != []
    ensures FindsSender(s) && CountsDown(lim, s, Handle(lim, s, seconds), r, s.senders[0].task == r)
  {
    WordFindsSender(lim, s);
    assert WordOk(s, s.channel[0], s.senders[0]);
    HandleTasks(lim, s, seconds);
    WordLeft(lim, s, seconds);
  }

  lemma {:induction false} TimerCounts(lim: Limits, s: State, i: nat, r: nat)
    requires i < |s.sched.requests| && Live(s, s.sched.requests[i].data)
    ensures CountsDown(lim, s, Fire(s, i), r, s.sched.requests[i].data.task == r)
  {
    FireLeft(lim, s, i);
  }

  lemma {:induction false} ReturnCounts(lim: Limits, s: State, x: nat, i: nat, ret: nat, r: nat)
    requires x in s.tasks && i < |s.tasks[x].threads| && !s.tasks[x].threads[i].returned
    ensures CountsDown(lim, s, Return(s, x, i, ret), r, x == r)
  {
    ReturnLeft(lim, s, x, i, ret);
  }

  lemma {:induction false} QuietCounts(lim: Limits, s: State, step: Step, r: nat)
    requires RefsOk(s) && Enabled(s, step) && Safe(s, step) && !step.Word? && !step.Timer? && !step.Returns?
    ensures CountsDown(lim, s, Next(lim, s, step), r, false)
  {
  }

  lemma {:induction false} OtherCounts(lim: Limits, s: State, step: Step, r: nat)
    requires RefsOk(s) && Enabled(s, step) && Safe(s, step) && !step.Word?
    ensures CountsDown(lim, s, Next(lim, s, step), r, IsOwn(s, step, r))
  {
    match step
    case Timer(i) => TimerCounts(lim, s, i, r);
    case Returns(x, i, ret) => ReturnCounts(lim, s, x, i, ret, r);
    case _ => QuietCounts(lim, s, step, r);
  }

  lemma {:induction false} NextCounts(lim: Limits, s: State, step: Step, r: nat)
    requires Inv(lim, s) && Bounded(s) && Enabled(s, step) && Safe(s, step)
    ensures CountsDown(lim, s, Next(lim, s, step), r, IsOwn(s, step, r))
  {
    if step.Word? {
      WordCounts(lim, s, step.seconds, r);
    } else {
      OtherCounts(lim, s, step, r);
    }
  }

  lemma {:induction false} RunCounts(lim: Limits, ss: seq<State>, steps: seq<Step>, n: nat, r: nat)
    requires IsRun(lim, ss, steps) && n < |steps|
    ensures CountsDown(lim, ss[n], ss[n + 1], r, IsOwn(ss[n], steps[n], r))
  {
    InvAlways(lim, ss, steps, n);
    RunStep(lim, ss, steps, n);
    NextCounts(lim, ss[n], steps[n], r);
  }

  /** While a task waits for something there is something left for it. */
  lemma {:induction false} SomethingLeft(lim: Limits, s: State, r: nat)
    requires Inv(lim, s) && r in s.tasks && Limited(lim, s.tasks[r].routes)
    requires s.tasks[r].threads != [] || Awaited(s, r)
    requires forall i :: 0 <= i < |s.tasks[r].started| ==> s.tasks[r].started[i] in s.tasks[r].routes
    ensures Left(lim, s.tasks[r]) >= 1
  {
    var t := s.tasks[r];
    assert TaskOk(lim, t);
    StartedFits(lim, t);
    if t.threads == [] {
      var q :| Queued(s.sched, q) && q.data.task == r;
      assert RequestOk(s, q);
      PendingLeft(lim, t, q.data.id);
    }
  }

  /** A retry that waits has room for its thread. */
  lemma {:induction false} PendingLeft(lim: Limits, t: Task, id: nat)
    requires TaskOk(lim, t) && Pending(t, id) && Limited(lim, t.routes)
    requires forall i :: 0 <= i < |t.started| ==> t.started[i] in t.routes
    ensures |t.started| < Budget(lim, t.routes)
  {
    var k := RetryAt(t.retries, id);
    FireOk(lim, t, k);
    StartedFits(lim, AddThread(t, t.retries[k].out));
  }

  /** The events of the task from state `k` on. */
  function OwnSteps(ss: seq<State>, steps: seq<Step>, k: nat, n: nat, r: nat): (m: nat)
    requires |ss| == |steps| + 1 && k <= n <= |steps|
    decreases n
  {
    if n == k then 0 else OwnSteps(ss, steps, k, n - 1, r) + One(IsOwn(ss[n - 1], steps[n - 1], r))
  }

  /** The state of the account at `n`: what has happened and what is left is what was left at the start. */
  ghost predicate Settles(lim: Limits, s: State, r: nat, done: nat, all: int) {
    && r < s.nextRef
    && (if r in s.tasks then s.tasks[r].running && done + Left(lim, s.tasks[r]) == all else done <= all)
  }

  lemma {:induction false} NextSettles(lim: Limits, s: State, s': State, r: nat, own: bool, done: nat, all: int)
    requires Settles(lim, s, r, done, all) && CountsDown(lim, s, s', r, own)
    requires r in s.tasks ==> Left(lim, s.tasks[r]) >= 1
    ensures Settles(lim, s', r, done + One(own), all)
  {
  }

  /**
   A started task with routes and limits ends: while it is there something can still happen
   to it, each of its events leaves exactly one less, and there is always at least one left.
   So it is gone after at most as many events as were left at the start.
   */
  lemma {:induction false} TasksEnd(lim: Limits, ss: seq<State>, steps: seq<Step>, k: nat, n: nat, r: nat)
    requires IsRun(lim, ss, steps) && k <= n <= |steps|
    requires r in ss[k].tasks && ss[k].tasks[r].running && ss[k].tasks[r].routes != []
    requires Limited(lim, ss[k].tasks[r].routes)
    ensures r in ss[n].tasks ==>
              && Alive(ss[n], r) && Left(lim, ss[n].tasks[r]) >= 1
              && OwnSteps(ss, steps, k, n, r) + Left(lim, ss[n].tasks[r]) == Left(lim, ss[k].tasks[r])
    ensures OwnSteps(ss, steps, k, n, r) <= Left(lim, ss[k].tasks[r]) <= 3 * Budget(lim, ss[k].tasks[r].routes)
  {
    SettlesAlways(lim, ss, steps, k, n, r, Left(lim, ss[k].tasks[r]));
    if r in ss[n].tasks {
      StillLeft(lim, ss, steps, k, n, r);
    }
    LeftAtMost(lim, ss, steps, k, r);
  }

  lemma {:induction false} SettlesAlways(
      lim: Limits, ss: seq<State>, steps: seq<Step>, k: nat, n: nat, r: nat, all: int)
    requires IsRun(lim, ss, steps) && k <= n <= |steps|
    requires r in ss[k].tasks && ss[k].tasks[r].running && ss[k].tasks[r].routes != []
    requires Limited(lim, ss[k].tasks[r].routes) && all == Left(lim, ss[k].tasks[r])
    ensures Settles(lim, ss[n], r, OwnSteps(ss, steps, k, n, r), all)
    decreases n
  {
    if n == k {
      RefBelow(lim, ss, steps, k, r);
    } else {
      SettlesAlways(lim, ss, steps, k, n - 1, r, all);
      StepSettles(lim, ss, steps, k, n - 1, r, OwnSteps(ss, steps, k, n - 1, r), all);
    }
  }

  lemma {:induction false} StepSettles(
      lim: Limits, ss: seq<State>, steps: seq<Step>, k: nat, n: nat, r: nat, done: nat, all: int)
    requires IsRun(lim, ss, steps) && k <= n < |steps| && r in ss[k].tasks && ss[k].tasks[r].routes != []
    requires Limited(lim, ss[k].tasks[r].routes) && Settles(lim, ss[n], r, done, all)
    ensures Settles(lim, ss[n + 1], r, done + One(IsOwn(ss[n], steps[n], r)), all)
  {
    if r in ss[n].tasks {
      StillLeft(lim, ss, steps, k, n, r);
    }
    RunCounts(lim, ss, steps, n, r);
    NextSettles(lim, ss[n], ss[n + 1], r, IsOwn(ss[n], steps[n], r), done, all);
  }

  lemma {:induction false} RefBelow(lim: Limits, ss: seq<State>, steps: seq<Step>, k: nat, r: nat)
    requires IsRun(lim, ss, steps) && k <= |steps| && r in ss[k].tasks
    ensures r < ss[k].nextRef
  {
    InvAlways(lim, ss, steps, k);
  }

  lemma {:induction false} StillLeft(lim: Limits, ss: seq<State>, steps: seq<Step>, k: nat, n: nat, r: nat)
    requires IsRun(lim, ss, steps) && k <= n <= |steps| && r in ss[k].tasks && r in ss[n].tasks
    requires ss[n].tasks[r].running && ss[k].tasks[r].routes != [] && Limited(lim, ss[k].tasks[r].routes)
    ensures Alive(ss[n], r) && Left(lim, ss[n].tasks[r]) >= 1
  {
    var routes := Accounts(lim, ss, steps, n, r);
    InvAlways(lim, ss, steps, n);
    assert RefsOk(ss[n]) && ss[n].tasks[r].routes == routes == ss[k].tasks[r].routes;
    BusyAlways(lim, ss, steps, n);
    NeverStuck(lim, ss, steps, n, r);
    SomethingLeft(lim, ss[n], r);
  }

  lemma {:induction false} LeftAtMost(lim: Limits, ss: seq<State>, steps: seq<Step>, k: nat, r: nat)
    requires IsRun(lim, ss, steps) && k <= |steps| && r in ss[k].tasks
    ensures Left(lim, ss[k].tasks[r]) <= 3 * Budget(lim, ss[k].tasks[r].routes)
  {
    var routes := Accounts(lim, ss, steps, k, r);
    InvAlways(lim, ss, steps, k);
    assert RefsOk(ss[k]);
    WorkingAtMost(ss[k].tasks[r].threads);
  }

  lemma {:induction false} WorkingAtMost(ths: seq<Thread>)
    ensures Working(ths) <= |ths|
    decreases |ths|
  {
    if ths != [] {
      WorkingAtMost(ths[1..]);
    }
  }

  // ---------------------------------------------------------------- a task without routes

  lemma {:induction false} WordSpares(lim: Limits, s: State, seconds: nat, r: nat)
    requires Inv(lim, s) && Bounded(s) && s.channel != [] && r in s.tasks && s.tasks[r].threads == []
    ensures FindsSender(s) && r in Handle(lim, s, seconds).tasks && Handle(lim, s, seconds).tasks[r] == s.tasks[r]
  {
    WordFindsSender(lim, s);
    assert WordOk(s, s.channel[0], s.senders[0]);
    HandleTasks(lim, s, seconds);
  }

  lemma {:induction false} NoRouteStays(lim: Limits, s: State, step: Step, r: nat)
    requires Inv(lim, s) && Bounded(s) && Enabled(s, step) && Safe(s, step)
    requires r in s.tasks && s.tasks[r].routes == []
    ensures r in Next(lim, s, step).tasks && Next(lim, s, step).tasks[r].routes == []
  {
    if step.Word? {
      NoRouteNoWork(lim, s, r);
      WordSpares(lim, s, step.seconds, r);
    } else {
      QuietRoutes(lim, s, step, r);
    }
  }

  lemma {:induction false} RunNoRoute(lim: Limits, ss: seq<State>, steps: seq<Step>, n: nat, r: nat)
    requires IsRun(lim, ss, steps) && n <= |steps| && r in ss[n].tasks && ss[n].tasks[r].routes == []
    ensures ss[n].tasks[r].threads == [] && !Awaited(ss[n], r)
    ensures n < |steps| ==> r in ss[n + 1].tasks && ss[n + 1].tasks[r].routes == []
  {
    InvAlways(lim, ss, steps, n);
    NoRouteNoWork(lim, ss[n], r);
    if n < |steps| {
      RunStep(lim, ss, steps, n);
      NoRouteStays(lim, ss[n], steps[n], r);
    }
  }

  /** A task created directly with no route is never destroyed: it holds its slot in every run. */
  lemma {:induction false} NoRouteNeverEnds(lim: Limits, ss: seq<State>, steps: seq<Step>, k: nat, n: nat, r: nat)
    requires IsRun(lim, ss, steps) && k <= n <= |steps| && r in ss[k].tasks && ss[k].tasks[r].routes == []
    ensures r in ss[n].tasks && ss[n].tasks[r].routes == [] && ss[n].tasks[r].threads == [] && !Awaited(ss[n], r)
    decreases n
  {
    if n > k {
      NoRouteNeverEnds(lim, ss, steps, k, n - 1, r);
      RunNoRoute(lim, ss, steps, n - 1, r);
    }
    RunNoRoute(lim, ss, steps, n, r);
  }
}
