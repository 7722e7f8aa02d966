/**
 Two configurations in which no request outlives its task, and one in which it does.
 */
module TaskScope {
  import opened Folding
  import opened TaskWord
  import opened TaskModel
  import opened TaskInv
  import opened TaskSteps
  import opened TaskRuns
  import opened TaskLife
  import opened Wrappers
  import B = Backoff
  import S = Scheduler

  // ---------------------------------------------------------------- the routes of tasks

  /** The step creates tasks with routes from the given family only. */
  predicate CreatesOnly(step: Step, p: seq<nat> -> bool) {
    (step.New? || step.NewDirect?) ==> p(step.routes)
  }

  predicate HaveRoutes(s: State, p: seq<nat> -> bool) { forall r :: r in s.tasks ==> p(s.tasks[r].routes) }

  lemma {:induction false} RoutesKept(lim: Limits, s: State, step: Step, p: seq<nat> -> bool)
    requires Inv(lim, s) && Bounded(s) && Enabled(s, step) && Safe(s, step)
    requires HaveRoutes(s, p) && CreatesOnly(step, p)
    ensures HaveRoutes(Next(lim, s, step), p)
  {
    if step.Word? {
      WordFindsSender(lim, s);
      assert WordOk(s, s.channel[0], s.senders[0]);
      HandleTasks(lim, s, step.seconds);
    } else {
      OthersKeepRoutes(lim, s, step, p);
    }
  }

  lemma {:induction false} OthersKeepRoutes(lim: Limits, s: State, step: Step, p: seq<nat> -> bool)
    requires Enabled(s, step) && Safe(s, step) && !step.Word?
    requires HaveRoutes(s, p) && CreatesOnly(step, p)
    ensures HaveRoutes(Next(lim, s, step), p)
  {
    if step.Begin? {
      AddThreadsForm(s.tasks[step.task].(running := true), s.tasks[step.task].routes);
    }
  }

  lemma {:induction false} RoutesAlways(lim: Limits, ss: seq<State>, steps: seq<Step>, n: nat, p: seq<nat> -> bool)
    requires IsRun(lim, ss, steps) && n <= |steps| && forall i :: 0 <= i < |steps| ==> CreatesOnly(steps[i], p)
    ensures HaveRoutes(ss[n], p)
    decreases n
  {
    if n > 0 {
      RoutesAlways(lim, ss, steps, n - 1, p);
      InvAlways(lim, ss, steps, n - 1);
      RunStep(lim, ss, steps, n - 1);
      RoutesKept(lim, ss[n - 1], steps[n - 1], p);
    }
  }

  // ---------------------------------------------------------------- one route

  /** With one route, a task that has a thread waits for no retry. */
  lemma {:induction false} OneRouteNotParked(lim: Limits, s: State)
    requires Inv(lim, s) && HaveRoutes(s, rs => |rs| <= 1)
    ensures !DestroysParked(lim, s)
  {
    forall k | 0 <= k < |s.sched.waiting| && s.sched.waiting[k].data.task in s.tasks
      ensures s.tasks[s.sched.waiting[k].data.task].threads == []
    {
      var q := s.sched.waiting[k];
      assert Queued(s.sched, q) && RequestOk(s, q);
      var t := s.tasks[q.data.task];
      assert TaskOk(lim, t);
      PendingAlone(t, q.data.id);
    }
  }

  lemma {:induction false} PendingAlone(t: Task, id: nat)
    requires ThreadsOk(t) && RetriesOk(t) && |t.routes| <= 1 && Pending(t, id)
    ensures t.threads == []
  {
    OnlyOutput(t, t.retries[RetryAt(t.retries, id)].out);
  }

  lemma {:induction false} OnlyOutput(t: Task, out: nat)
    requires ThreadsOk(t) && |t.routes| <= 1 && out in t.routes
    ensures t.threads != [] ==> HasThread(t, out)
  {
    if t.threads != [] {
      assert t.threads[0].out == out;
    }
  }

  /** Where every task has one route, no request ever outlives its task. */
  lemma {:induction false} OneRouteNeverDangles(lim: Limits, ss: seq<State>, steps: seq<Step>, n: nat)
    requires IsRun(lim, ss, steps) && n <= |steps|
    requires forall i :: 0 <= i < |steps| ==> CreatesOnly(steps[i], rs => |rs| <= 1)
    ensures NoDangling(ss[n])
  {
    forall k | 0 <= k < n && steps[k].Word? ensures !DestroysParked(lim, ss[k]) {
      InvAlways(lim, ss, steps, k);
      RoutesAlways(lim, ss, steps, k, rs => |rs| <= 1);
      OneRouteNotParked(lim, ss[k]);
    }
    DanglingExactly(lim, ss, steps, n);
  }

  // ---------------------------------------------------------------- no retries beyond the first

  predicate Once(lim: Limits, routes: seq<nat>) { forall o :: o in routes ==> Limit(lim, o) == 0 }

  /** The next word asks for a retry, and gets one. */
  predicate WantsRetry(lim: Limits, s: State) {
    && s.senders != [] && s.senders[0].task in s.tasks && s.senders[0].ret == FLB_RETRY
    && var t := s.tasks[s.senders[0].task];
    && WordThread(s) < |t.threads| && !LimitReached(lim, t, t.threads[WordThread(s)].out)
  }

  /** The wait is one that the backoff may choose for the number of attempts. */
  predicate Jittered(lim: Limits, s: State, step: Step) {
    step.Word? && WantsRetry(lim, s) ==>
      var t := s.tasks[s.senders[0].task];
      var out := t.threads[WordThread(s)].out;
      step.seconds <= B.Bound(Attempts(MoreRetry(t, out, s.nextRef), out))
  }

  lemma {:induction false} FirstAttempt(lim: Limits, t: Task, out: nat, ref: nat)
    requires TaskOk(lim, t) && out in t.routes && Limit(lim, out) == 0 && !LimitReached(lim, t, out)
    ensures Attempts(MoreRetry(t, out, ref), out) == 1 && B.Bound(1) == S.FRAME
  {
    assert RouteOk(lim, t, out);
    FirstRetry(t.retries + [Retry(ref, out, 1)], out, |t.retries|);
  }

  lemma {:induction false} InvalidateAllWaiting(sc: S.Sched, r: nat, rs: seq<Retry>)
    ensures InvalidateAll(sc, r, rs).waiting == sc.waiting
    decreases |rs|
  {
    if rs != [] {
      InvalidateAllWaiting(S.Invalidate(sc, S.RetryPtr(r, rs[0].id)), r, rs[1..]);
    }
  }

  lemma {:induction false} SettleWaiting(s: State, r: nat, u: Task)
    requires u.slot < |s.slots|
    ensures Settle(s, r, u).sched.waiting == s.sched.waiting
  {
    InvalidateAllWaiting(s.sched, r, u.retries);
  }

  lemma {:induction false} HandledWaiting(lim: Limits, s: State, r: nat, i: nat, ret: nat, seconds: nat)
    requires r in s.tasks && i < |s.tasks[r].threads| && s.tasks[r].slot < |s.slots|
    requires ret == FLB_RETRY && !LimitReached(lim, s.tasks[r], s.tasks[r].threads[i].out) ==> seconds <= S.FRAME
    ensures Handled(lim, s, r, i, ret, seconds).sched.waiting == s.sched.waiting
  {
    var t := s.tasks[r];
    var out := t.threads[i].out;
    SettleWaiting(s, r, RemoveThread(t, i));
    SettleWaiting(s.(sched := DropRequest(s.sched, r, t, out)), r, RemoveThread(DropRetry(t, out), i));
  }

  lemma {:induction false} OnceNeverParks(lim: Limits, s: State, step: Step)
    requires Inv(lim, s) && Bounded(s) && Enabled(s, step) && Safe(s, step) && Jittered(lim, s, step)
    requires HaveRoutes(s, rs => Once(lim, rs)) && s.sched.waiting == []
    ensures Next(lim, s, step).sched.waiting == []
  {
    if step.Word? {
      WordFindsSender(lim, s);
      HandleIs(lim, s, step.seconds);
      var r, i := WordTask(s), WordThread(s);
      var t := s.tasks[r];
      assert TaskOk(lim, t);
      if WantsRetry(lim, s) {
        FirstAttempt(lim, t, t.threads[i].out, s.nextRef);
      }
      HandledWaiting(lim, Popped(s), r, i, s.senders[0].ret, step.seconds);
    }
  }

  /** With a retry limit of 0 everywhere every wait fits the frame, and no request outlives its task. */
  lemma {:induction false} OnceNeverDangles(lim: Limits, ss: seq<State>, steps: seq<Step>, n: nat)
    requires IsRun(lim, ss, steps) && n <= |steps|
    requires forall i :: 0 <= i < |steps| ==>
               CreatesOnly(steps[i], rs => Once(lim, rs)) && Jittered(lim, ss[i], steps[i])
    ensures ss[n].sched.waiting == [] && NoDangling(ss[n])
    decreases n
  {
    if n > 0 {
      OnceNeverDangles(lim, ss, steps, n - 1);
      InvAlways(lim, ss, steps, n - 1);
      RoutesAlways(lim, ss, steps, n - 1, rs => Once(lim, rs));
      RunStep(lim, ss, steps, n - 1);
      OnceNeverParks(lim, ss[n - 1], steps[n - 1]);
      StepDangling(lim, ss[n - 1], steps[n - 1], ss[n]);
    }
  }

  // ---------------------------------------------------------------- nothing faults

  /** Where every task has one route, everything the environment can do next, in any run, is safe. */
  lemma {:induction false} OneRouteNeverFaults(lim: Limits, ss: seq<State>, steps: seq<Step>, n: nat, step: Step)
    requires IsRun(lim, ss, steps) && n <= |steps| && Bounded(ss[n]) && Enabled(ss[n], step)
    requires forall i :: 0 <= i < |steps| ==> CreatesOnly(steps[i], rs => |rs| <= 1)
    ensures Safe(ss[n], step)
  {
    OneRouteNeverDangles(lim, ss, steps, n);
    InvAlways(lim, ss, steps, n);
    NothingFaults(lim, ss[n], step);
  }

  /** And so it is with a retry limit of 0. */
  lemma {:induction false} OnceNeverFaults(lim: Limits, ss: seq<State>, steps: seq<Step>, n: nat, step: Step)
    requires IsRun(lim, ss, steps) && n <= |steps| && Bounded(ss[n]) && Enabled(ss[n], step)
    requires forall i :: 0 <= i < |steps| ==>
               CreatesOnly(steps[i], rs => Once(lim, rs)) && Jittered(lim, ss[i], steps[i])
    ensures Safe(ss[n], step)
  {
    OnceNeverDangles(lim, ss, steps, n);
    InvAlways(lim, ss, steps, n);
    NothingFaults(lim, ss[n], step);
  }

  // ---------------------------------------------------------------- two routes

  const Two := Task(0, true, 2, 2, [Thread(0, 1, false), Thread(1, 2, false)], [1, 2], [], [1, 2])

  /** A fresh engine with one started task that has the two routes. */
  function TwoCreated(): (s: State) { CreateRouted(Init(0), [1, 2]) }

  lemma {:induction false} CreatedIs()
    ensures var s := TwoCreated();
            && s.tasks == map[0 := Task(0, false, 0, 0, [], [1, 2], [], [])]
            && s.channel == [] && s.senders == [] && s.sched == S.Start(0)
  {
    assert FreeSlot(Init(0).slots) == 0;
  }

  lemma {:induction false} AddTwo(t: Task)
    requires t == Task(0, true, 0, 0, [], [1, 2], [], [])
    ensures AddThreads(t, [1, 2]) == Two
  {
    assert [1, 2][1..] == [2] && [2][1..] == [];
    var u := AddThread(AddThread(t, 1), 2);
    assert AddThreads(t, [1, 2]) == u;
    assert u.threads == Two.threads && u.started == Two.started;
  }

  function TwoStarted(): (s: State)
    ensures Idle(s, Two) && s.sched == S.Start(0)
  {
    CreatedIs();
    AddTwo(TwoCreated().tasks[0].(running := true));
    StartTask(TwoCreated(), 0)
  }

  /** One step of a run with the default limits, and with a wait that the backoff may choose. */
  predicate Leads(s: State, step: Step, s': State) {
    forall b {:trigger Unfold(b)} :: Unfold(b) ==>
      Bounded(s) && Enabled(s, step) && Safe(s, step) && Jittered(map[], s, step) && s' == Next(map[], s, step)
  }

  /** The task `t` in slot 0 is the only one. */
  predicate Shape(s: State, t: Task) {
    |s.slots| == SLOTS && s.slots[0] == Some(0) && s.tasks == map[0 := t] && t.slot == 0 && t.nThreads <= 3
  }

  predicate Idle(s: State, t: Task) { Shape(s, t) && s.channel == [] && s.senders == [] }

  function Returned(t: Task, i: nat): (u: Task)
    requires i < |t.threads|
  {
    t.(threads := t.threads[i := t.threads[i].(returned := true)])
  }

  /** Thread number `i` of the task has just reported a result. */
  predicate Reporting(s: State, t: Task, i: nat, ret: nat) {
    && Shape(s, t) && i < |t.threads| && ret <= 2
    && s.channel == [Encode(Signal(ret, 0, t.threads[i].id))] && s.senders == [Sender(0, t.threads[i].id, ret)]
  }

  lemma {:induction false} Reports(s: State, t: Task, i: nat, ret: nat) returns (s': State)
    requires Idle(s, t) && i < |t.threads| && !t.threads[i].returned && ret <= 2
    ensures Leads(s, Returns(0, i, ret), s') && s'.sched == s.sched && s'.nextRef == s.nextRef
    ensures Reporting(s', Returned(t, i), i, ret)
  {
    s' := Return(s, 0, i, ret);
  }

  lemma {:induction false} WordIs(s: State, t: Task, i: nat, ret: nat, seconds: nat) returns (s': State)
    requires Reporting(s, t, i, ret) && t.threads[i].id < THREADS && ThreadIndex(t.threads, t.threads[i].id) == i
    requires ret == FLB_RETRY ==>
               var out := t.threads[i].out;
               seconds <= B.Bound(Attempts(MoreRetry(t, out, s.nextRef), out))
    ensures Leads(s, Word(seconds), s') && s' == Handled(map[], Popped(s), 0, i, ret, seconds)
  {
    SignalComesBack(Signal(ret, 0, t.threads[i].id));
    s' := Handle(map[], s, seconds);
  }

  /** The task once its first output has failed for the `n`th time and the second is still at work. */
  predicate OneFailed(t: Task, n: nat) {
    && t.threads == [Thread(1, 2, false)] && t.users == 1
    && |t.retries| == 1 && t.retries[0].out == 1 && t.retries[0].attempts == n
  }

  /** The first thread asks for a retry and gets one in a second. */
  lemma {:induction false} FirstFails(s: State) returns (x: State, s': State, u: Task)
    requires Idle(s, Two) && s.sched == S.Start(0)
    ensures Leads(s, Returns(0, 0, FLB_RETRY), x) && Leads(x, Word(1), s')
    ensures Idle(s', u) && OneFailed(u, 1) && u.nThreads == 2 && s'.sched.now == 0
    ensures s'.sched.waiting == [] && |s'.sched.requests| == 1
    ensures s'.sched.requests[0].data == S.RetryPtr(0, u.retries[0].id) && s'.sched.requests[0].expiry == S.At(1)
  {
    x := Reports(s, Two, 0, FLB_RETRY);
    var t := Returned(Two, 0);
    assert t.threads == [Thread(0, 1, true), Thread(1, 2, false)];
    assert B.Bound(1) == 10;
    s' := WordIs(x, t, 0, FLB_RETRY, 1);
    u := RemoveThread(MoreRetry(t, 1, x.nextRef), 0);
    assert u.threads == [Thread(1, 2, false)];
    assert s'.tasks == map[0 := u];
  }

  /** A second later the timer starts another thread for the first output. */
  lemma {:induction false} TimerFires(s: State, t: Task) returns (x: State, s': State, u: Task)
    requires Idle(s, t) && OneFailed(t, 1) && t.nThreads == 2 && s.sched.now == 0 && s.sched.waiting == []
    requires |s.sched.requests| == 1 && s.sched.requests[0].expiry == S.At(1)
    requires s.sched.requests[0].data == S.RetryPtr(0, t.retries[0].id)
    ensures Leads(s, Tick, x) && Leads(x, Timer(0), s')
    ensures Idle(s', u) && u == AddThread(t, 1) && s'.sched.waiting == []
  {
    x := s.(sched := s.sched.(now := 1));
    assert x.tasks[0].retries[0].id == x.sched.requests[0].data.id;
    s' := Fire(x, 0);
    u := AddThread(t, 1);
    assert s'.tasks == map[0 := u];
  }

  /** That thread asks again, and now the wait is longer than a frame: the request is parked. */
  lemma {:induction false} FailsAgain(s: State, t: Task) returns (x: State, s': State, u: Task)
    requires OneFailed(t, 1) && t.nThreads == 2 && Idle(s, AddThread(t, 1)) && s.sched.waiting == []
    ensures Leads(s, Returns(0, 1, FLB_RETRY), x) && Leads(x, Word(20), s')
    ensures Idle(s', u) && OneFailed(u, 2) && |s'.sched.waiting| == 1 && s'.sched.waiting[0].data.task == 0
  {
    var v := AddThread(t, 1);
    x := Reports(s, v, 1, FLB_RETRY);
    var w := Returned(v, 1);
    assert w.threads == [Thread(1, 2, false), Thread(2, 1, true)];
    SecondAttempt(w, x.nextRef);
    s' := WordIs(x, w, 1, FLB_RETRY, 20);
    u := RemoveThread(MoreRetry(w, 1, x.nextRef), 1);
    assert u.threads == [Thread(1, 2, false)];
    assert s'.tasks == map[0 := u];
  }

  lemma {:induction false} SecondAttempt(t: Task, ref: nat)
    requires |t.retries| == 1 && t.retries[0].out == 1 && t.retries[0].attempts == 1
    ensures RetryIndex(t.retries, 1) == 0 && !LimitReached(map[], t, 1)
    ensures MoreRetry(t, 1, ref) == t.(retries := [t.retries[0].(attempts := 2)])
    ensures Attempts(MoreRetry(t, 1, ref), 1) == 2 && B.Bound(2) == 20
  {
  }

  /** The second thread succeeds: the task goes, and the parked request stays. */
  lemma {:induction false} SecondSucceeds(s: State, t: Task) returns (x: State, s': State)
    requires Idle(s, t) && OneFailed(t, 2)
    requires |s.sched.waiting| == 1 && s.sched.waiting[0].data.task == 0
    ensures Leads(s, Returns(0, 0, FLB_OK), x) && Leads(x, Word(0), s') && !NoDangling(s')
  {
    x := Reports(s, t, 0, FLB_OK);
    s' := WordIs(x, Returned(t, 0), 0, FLB_OK, 0);
    HandledWaiting(map[], Popped(x), 0, 0, FLB_OK, 0);
    assert Queued(s'.sched, s.sched.waiting[0]);
    assert 0 !in s'.tasks;
  }

  /** A run with the default limits whose every wait is one that the backoff may choose. */
  ghost predicate IsJitteredRun(ss: seq<State>, steps: seq<Step>) {
    IsRun(map[], ss, steps) && forall i :: 0 <= i < |steps| ==> Jittered(map[], ss[i], steps[i])
  }

  lemma {:induction false} Extend(ss: seq<State>, steps: seq<Step>, step: Step, s': State)
    requires IsJitteredRun(ss, steps) && Leads(ss[|steps|], step, s')
    ensures IsJitteredRun(ss + [s'], steps + [step])
  {
    var ss', steps' := ss + [s'], steps + [step];
    assert IsStep(map[], ss[|steps|], step, s') && Jittered(map[], ss[|steps|], step) by {
      assert Unfold(true);
    }
    forall i | 0 <= i < |steps'| ensures IsStep(map[], ss'[i], steps'[i], ss'[i + 1]) {
      if i < |steps| {
        assert IsStep(map[], ss[i], steps[i], ss[i + 1]);
      }
    }
    forall i | 0 <= i < |steps'| ensures Jittered(map[], ss'[i], steps'[i]) {
      if i < |steps| {
        assert Jittered(map[], ss[i], steps[i]);
      }
    }
  }

  lemma {:induction false} ExtendTwo(ss: seq<State>, steps: seq<Step>, a: Step, s1: State, b: Step, s2: State)
      returns (ss': seq<State>, steps': seq<Step>)
    requires IsJitteredRun(ss, steps) && Leads(ss[|steps|], a, s1) && Leads(s1, b, s2)
    ensures IsJitteredRun(ss', steps') && ss'[|steps'|] == s2
  {
    Extend(ss, steps, a, s1);
    Extend(ss + [s1], steps + [a], b, s2);
    ss', steps' := ss + [s1] + [s2], steps + [a] + [b];
  }

  lemma {:induction false} FirstTwo()
    ensures Leads(Init(0), New([1, 2]), TwoCreated()) && Leads(TwoCreated(), Begin(0), TwoStarted())
  {
    CreatedIs();
    assert Bounded(Init(0));
    assert Enabled(Init(0), New([1, 2]));
    assert Safe(Init(0), New([1, 2]));
    assert TwoCreated() == Next(map[], Init(0), New([1, 2]));
  }

  /**
   With two routes and the default limit of one retry a request can outlive its task, with
   waits that the backoff chooses: a second failure of one output is parked, and meanwhile the
   other output ends the last thread of the task.
   */
  lemma {:induction false} TwoRoutesCanDangle() returns (ss: seq<State>, steps: seq<Step>)
    ensures IsJitteredRun(ss, steps) && !NoDangling(ss[|steps|])
  {
    FirstTwo();
    var s3, s4, t := FirstFails(TwoStarted());
    var s5, s6, u := TimerFires(s4, t);
    var s7, s8, v := FailsAgain(s6, t);
    var s9, s10 := SecondSucceeds(s8, v);
    ss, steps := ExtendTwo([Init(0)], [], New([1, 2]), TwoCreated(), Begin(0), TwoStarted());
    ss, steps := ExtendTwo(ss, steps, Returns(0, 0, FLB_RETRY), s3, Word(1), s4);
    ss, steps := ExtendTwo(ss, steps, Tick, s5, Timer(0), s6);
    ss, steps := ExtendTwo(ss, steps, Returns(0, 1, FLB_RETRY), s7, Word(20), s8);
    ss, steps := ExtendTwo(ss, steps, Returns(0, 0, FLB_OK), s9, Word(0), s10);
  }
}
