/**
 The work of a task: a started task always has a linked thread or a scheduled retry, and over
 a whole run it takes a bounded number of words and timers.
 */
module TaskLife {
  import opened TaskModel
  import opened TaskInv
  import opened TaskSteps
  import opened TaskRuns
  import S = Scheduler

  // ---------------------------------------------------------------- a thread or a retry

  /** A request of the task is scheduled. */
  ghost predicate Awaited(s: State, r: nat) { exists q :: Queued(s.sched, q) && q.data.task == r }

  /** A started task with routes has a thread, or a retry that will be fired. */
  ghost predicate Busy(s: State) {
    forall r :: r in s.tasks && s.tasks[r].running && s.tasks[r].routes != [] ==>
      s.tasks[r].threads != [] || Awaited(s, r)
  }

  /** Other tasks keep what they wait for. */
  lemma OthersBusy(s: State, s': State, r: nat)
    requires Busy(s)
    requires forall x :: x in s'.tasks && x != r ==> x in s.tasks && s'.tasks[x] == s.tasks[x]
    requires forall x :: x != r && Awaited(s, x) ==> Awaited(s', x)
    requires r in s'.tasks && s'.tasks[r].running && s'.tasks[r].routes != [] ==>
               s'.tasks[r].threads != [] || Awaited(s', r)
    ensures Busy(s')
  {
  }

  /** Requests of other tasks stay scheduled. */
  ghost predicate Spares(s: State, s': State, r: nat) {
    forall q :: Queued(s.sched, q) && q.data.task != r ==> Queued(s'.sched, q)
  }

  lemma {:induction false} SparedBusy(s: State, s': State, r: nat)
    requires Busy(s) && Spares(s, s', r)
    requires forall x :: x in s'.tasks && x != r ==> x in s.tasks && s'.tasks[x] == s.tasks[x]
    requires r in s'.tasks && s'.tasks[r].running && s'.tasks[r].routes != [] ==>
               s'.tasks[r].threads != [] || Awaited(s', r)
    ensures Busy(s')
  {
    forall x | x != r && Awaited(s, x) ensures Awaited(s', x) {
      var q :| Queued(s.sched, q) && q.data.task == x;
      assert Queued(s'.sched, q);
    }
    OthersBusy(s, s', r);
  }

  lemma {:induction false} SettleSpares(s: State, r: nat, u: Task)
    requires s.senders != [] && s.channel != [] && u.slot < |s.slots| && S.Owned(s.sched)
    ensures Spares(s, Settle(Popped(s), r, u), r)
  {
    if u.users == 0 {
      InvalidateAllSpares(s.sched, r, u.retries);
    }
  }

  lemma {:induction false} InvalidateAllSpares(sc: S.Sched, r: nat, rs: seq<Retry>)
    ensures forall q :: Queued(sc, q) && q.data.task != r ==> Queued(InvalidateAll(sc, r, rs), q)
    decreases |rs|
  {
    if rs != [] {
      var p := S.RetryPtr(r, rs[0].id);
      forall q | Queued(sc, q) && q.data.task != r ensures Queued(S.Invalidate(sc, p), q) {
        InvalidateSpares(sc, p, q);
      }
      InvalidateAllSpares(S.Invalidate(sc, p), r, rs[1..]);
    }
  }

  lemma {:induction false} InvalidateSpares(sc: S.Sched, p: S.RetryPtr, q: S.Request)
    requires Queued(sc, q) && q.data != p
    ensures Queued(S.Invalidate(sc, p), q)
  {
    var i := S.IndexOf(sc.requests, p);
    if i < |sc.requests| {
      DestroySpares(sc, i, q);
    }
  }

  lemma {:induction false} DestroySpares(sc: S.Sched, i: nat, q: S.Request)
    requires i < |sc.requests| && Queued(sc, q) && q != sc.requests[i]
    ensures Queued(S.Destroy(sc, i), q)
  {
    if q in sc.requests {
      var k :| 0 <= k < |sc.requests| && sc.requests[k] == q;
      assert S.Destroy(sc, i).requests[if k < i then k else k - 1] == q;
    }
  }

  lemma {:induction false} SettleBusy(s: State, r: nat, i: nat, u: Task)
    requires FirstFrom(s, r, i) && u.slot < |s.slots| && S.Owned(s.sched) && Busy(s)
    requires u.users == |u.threads|
    ensures Busy(Settle(Popped(s), r, u))
  {
    SettleSpares(s, r, u);
    SparedBusy(s, Settle(Popped(s), r, u), r);
  }

  lemma {:induction false} CreateSchedules(sc: S.Sched, p: S.RetryPtr, seconds: nat)
    ensures exists q :: Queued(S.Create(sc, p, seconds), q) && q.data == p
    ensures forall q :: Queued(sc, q) ==> Queued(S.Create(sc, p, seconds), q)
  {
    var n := S.Request(p, sc.now, seconds, sc.nextTimer, S.Unarmed);
    var q := if seconds > S.FRAME then n else S.Arm(n, seconds, sc.now);
    var r := S.Create(sc, p, seconds);
    assert if seconds > S.FRAME then r.waiting[|sc.waiting|] == q else r.requests[|sc.requests|] == q;
    assert Queued(r, q);
  }

  lemma {:induction false} RescheduleBusy(s: State, r: nat, i: nat, seconds: nat)
    requires FirstFrom(s, r, i) && Busy(s)
    ensures Busy(Reschedule(Popped(s), r, i, seconds))
  {
    RescheduleForm(s, r, i, seconds);
    var s' := Reschedule(Popped(s), r, i, seconds);
    var p := NextPtr(s.tasks[r], r, s.tasks[r].threads[i].out, s.nextRef);
    CreateSchedules(s.sched, p, seconds);
    var q :| Queued(s'.sched, q) && q.data == p;
    assert Awaited(s', r);
    SparedBusy(s, s', r);
  }

  lemma {:induction false} HandleBusy(lim: Limits, s: State, seconds: nat)
    requires Inv(lim, s) && Bounded(s) && s.channel != [] && Busy(s)
    ensures FindsSender(s) && Busy(Handle(lim, s, seconds))
  {
    WordFindsSender(lim, s);
    HandleIs(lim, s, seconds);
    var r, i, ret := WordTask(s), WordThread(s), s.senders[0].ret;
    assert WordOk(s, s.channel[0], s.senders[0]);
    if ret == FLB_ERROR {
      AbandonEnds(lim, s, r, i);
      SettleBusy(s, r, i, RemoveThread(s.tasks[r], i));
    } else if ret == FLB_RETRY && !LimitReached(lim, s.tasks[r], s.tasks[r].threads[i].out) {
      RescheduleBusy(s, r, i, seconds);
    } else {
      ConcludeKeeps(lim, s, r, i);
      ConcludeEnds(lim, s, r, i);
      SettleBusy(s, r, i, Concluded(s.tasks[r], i));
    }
  }

  lemma {:induction false} FireBusy(s: State, i: nat)
    requires Busy(s) && i < |s.sched.requests| && Live(s, s.sched.requests[i].data)
    ensures Busy(Fire(s, i))
  {
    var r, s' := s.sched.requests[i].data.task, Fire(s, i);
    forall q | Queued(s.sched, q) && q.data.task != r ensures Queued(s'.sched, q) {
      DestroySpares(s.sched, i, q);
    }
    SparedBusy(s, s', r);
  }

  lemma {:induction false} FrameQueues(qs: seq<S.Request>, now: int, q: S.Request)
    requires q in qs
    ensures q in S.Parked(qs, now) || S.Arm(q, S.Left(q, now), now) in S.Promoted(qs, now)
    decreases |qs|
  {
    if q != qs[0] {
      FrameQueues(qs[1..], now, q);
    }
  }

  lemma {:induction false} FrameBusy(s: State)
    requires Busy(s)
    ensures Busy(s.(sched := S.FrameTick(s.sched)))
  {
    var s' := s.(sched := S.FrameTick(s.sched));
    forall x | Awaited(s, x) ensures Awaited(s', x) {
      var q :| Queued(s.sched, q) && q.data.task == x;
      if q in s.sched.waiting {
        FrameQueues(s.sched.waiting, s.sched.now, q);
        var a := S.Arm(q, S.Left(q, s.sched.now), s.sched.now);
        assert Queued(s'.sched, q) || Queued(s'.sched, a);
      } else {
        assert Queued(s'.sched, q);
      }
    }
  }

  lemma {:induction false} StartBusy(s: State, r: nat)
    requires r in s.tasks && Busy(s)
    ensures Busy(StartTask(s, r))
  {
    var t := s.tasks[r];
    AddThreadsForm(t.(running := true), t.routes);
    SparedBusy(s, StartTask(s, r), r);
  }

  lemma {:induction false} ReturnBusy(s: State, r: nat, i: nat, ret: nat)
    requires r in s.tasks && i < |s.tasks[r].threads| && Busy(s)
    ensures Busy(Return(s, r, i, ret))
  {
    SparedBusy(s, Return(s, r, i, ret), r);
  }

  lemma {:induction false} CreateBusy(s: State, routes: seq<nat>)
    requires Busy(s)
    ensures Busy(Create(s, routes))
  {
    SparedBusy(s, Create(s, routes), s.nextRef);
  }

  lemma {:induction false} TickBusy(s: State)
    requires Busy(s)
    ensures Busy(s.(sched := s.sched.(now := s.sched.now + 1)))
  {
    var s' := s.(sched := s.sched.(now := s.sched.now + 1));
    forall x | Awaited(s, x) ensures Awaited(s', x) {
      var q :| Queued(s.sched, q) && q.data.task == x;
      assert Queued(s'.sched, q);
    }
  }

  lemma {:induction false} NextBusy(lim: Limits, s: State, step: Step)
    requires Inv(lim, s) && Bounded(s) && Busy(s) && Enabled(s, step) && Safe(s, step)
    ensures Busy(Next(lim, s, step))
  {
    match step
    case New(routes) => CreateBusy(s, routes);
    case NewDirect(routes) => CreateBusy(s, routes);
    case Begin(r) => StartBusy(s, r);
    case Returns(r, i, ret) => ReturnBusy(s, r, i, ret);
    case Word(seconds) => HandleBusy(lim, s, seconds);
    case Timer(i) => FireBusy(s, i);
    case Frame => FrameBusy(s);
    case Tick => TickBusy(s);
  }

  /** In every run a started task with routes has a linked thread or a scheduled retry. */
  lemma {:induction false} BusyAlways(lim: Limits, ss: seq<State>, steps: seq<Step>, n: nat)
    requires IsRun(lim, ss, steps) && n <= |steps|
    ensures Busy(ss[n])
    decreases n
  {
    if n > 0 {
      BusyAlways(lim, ss, steps, n - 1);
      InvAlways(lim, ss, steps, n - 1);
      RunStep(lim, ss, steps, n - 1);
      NextBusy(lim, ss[n - 1], steps[n - 1]);
    }
  }

  /** A task with no route has no thread, no queued word and no scheduled retry. */
  lemma {:induction false} NoRouteNoWork(lim: Limits, s: State, r: nat)
    requires Inv(lim, s) && r in s.tasks && s.tasks[r].routes == []
    ensures s.tasks[r].threads == [] && !Awaited(s, r)
    ensures forall i :: 0 <= i < |s.senders| ==> s.senders[i].task != r
  {
    assert TaskOk(lim, s.tasks[r]);
    NeedsRoutes(s.tasks[r]);
    NoWordsFor(s, r);
    NoRequestsFor(s, r);
  }

  lemma {:induction false} NeedsRoutes(t: Task)
    requires ThreadsOk(t) && RetriesOk(t)
    ensures t.threads != [] || t.retries != [] ==> t.routes != []
  {
    if t.threads != [] {
      assert t.threads[0].out in t.routes;
    } else if t.retries != [] {
      assert t.retries[0].out in t.routes;
    }
  }

  // ---------------------------------------------------------------- a task ends after bounded work

  /** A word changes the task that sent it, and no other: one thread less, or the task is gone. */
  ghost predicate OneThreadLess(s: State, s': State, r: nat)
    requires r in s.tasks
  {
    && s'.nextRef >= s.nextRef
    && (forall x :: x != r ==> (x in s'.tasks <==> x in s.tasks))
    && (forall x :: x != r && x in s.tasks ==> s'.tasks[x] == s.tasks[x])
    && (r in s'.tasks ==>
          var t, u := s.tasks[r], s'.tasks[r];
          u.routes == t.routes && u.started == t.started && u.running == t.running && |u.threads| == |t.threads| - 1)
  }

  lemma {:induction false} HandleTasks(lim: Limits, s: State, seconds: nat)
    requires FindsSender(s) && s.senders[0].ret <= 2
    ensures WordTask(s) in s.tasks && OneThreadLess(s, Handle(lim, s, seconds), WordTask(s))
  {
    HandleIs(lim, s, seconds);
    var r, i := WordTask(s), WordThread(s);
    var s' := Handled(lim, Popped(s), r, i, s.senders[0].ret, seconds);
    var t := s.tasks[r];
    assert s'.tasks == s.tasks - {r} || s'.tasks == s.tasks[r := s'.tasks[r]];
  }

  function WordsOf(ss: seq<State>, steps: seq<Step>, n: nat, r: nat): (w: nat)
    requires |ss| == |steps| + 1 && n <= |steps|
    decreases n
  {
    if n == 0 then 0
    else WordsOf(ss, steps, n - 1, r) + if IsWordOf(ss[n - 1], steps[n - 1], r) then 1 else 0
  }

  predicate IsWordOf(s: State, step: Step, r: nat) { step.Word? && s.senders != [] && s.senders[0].task == r }

  function FiresOf(ss: seq<State>, steps: seq<Step>, n: nat, r: nat): (w: nat)
    requires |ss| == |steps| + 1 && n <= |steps|
    decreases n
  {
    if n == 0 then 0
    else FiresOf(ss, steps, n - 1, r) + if IsFireOf(ss[n - 1], steps[n - 1], r) then 1 else 0
  }

  predicate IsFireOf(s: State, step: Step, r: nat) {
    step.Timer? && step.i < |s.sched.requests| && s.sched.requests[step.i].data.task == r
  }

  /** The threads the retry limits of the routes allow. */
  function Budget(lim: Limits, routes: seq<nat>): (b: int)
    decreases |routes|
  {
    if routes == [] then 0 else Limit(lim, routes[0]) + 2 + Budget(lim, routes[1..])
  }

  function Counts(xs: seq<nat>, routes: seq<nat>): (n: nat)
    decreases |routes|
  {
    if routes == [] then 0 else multiset(xs)[routes[0]] + Counts(xs, routes[1..])
  }

  lemma {:induction false} CountsPush(xs: seq<nat>, x: nat, routes: seq<nat>)
    requires DistinctRoutes(routes)
    ensures Counts(xs + [x], routes) == Counts(xs, routes) + if x in routes then 1 else 0
    decreases |routes|
  {
    if routes != [] {
      CountsPush(xs, x, routes[1..]);
      assert x in routes <==> x == routes[0] || x in routes[1..];
    }
  }

  lemma {:induction false} CountsAll(xs: seq<nat>, routes: seq<nat>)
    requires DistinctRoutes(routes) && forall i :: 0 <= i < |xs| ==> xs[i] in routes
    ensures Counts(xs, routes) == |xs|
    decreases |xs|
  {
    if xs == [] {
      CountsNone(routes);
    } else {
      var ys := xs[..|xs| - 1];
      assert xs == ys + [xs[|xs| - 1]];
      CountsAll(ys, routes);
      CountsPush(ys, xs[|xs| - 1], routes);
    }
  }

  lemma {:induction false} CountsNone(routes: seq<nat>)
    ensures Counts([], routes) == 0
    decreases |routes|
  {
    if routes != [] {
      CountsNone(routes[1..]);
    }
  }

  lemma {:induction false} CountsFit(lim: Limits, t: Task, routes: seq<nat>)
    requires forall o :: o in routes ==> RouteOk(lim, t, o) && Limit(lim, o) >= 0
    ensures Counts(t.started, routes) <= Budget(lim, routes)
    decreases |routes|
  {
    if routes != [] {
      assert RouteOk(lim, t, routes[0]);
      CountsFit(lim, t, routes[1..]);
    }
  }

  predicate Limited(lim: Limits, routes: seq<nat>) { forall o :: o in routes ==> Limit(lim, o) >= 0 }

  lemma {:induction false} StartedFits(lim: Limits, t: Task)
    requires TaskOk(lim, t) && Limited(lim, t.routes) && forall i :: 0 <= i < |t.started| ==> t.started[i] in t.routes
    ensures |t.started| <= Budget(lim, t.routes)
  {
    CountsAll(t.started, t.routes);
    CountsFit(lim, t, t.routes);
  }

  /** What a live task has done can be read off its threads. */
  predicate LiveAccount(t: Task, w: nat, f: nat) {
    && w == |t.started| - |t.threads|
    && f == (if t.running then |t.started| - |t.routes| else 0)
    && (forall i :: 0 <= i < |t.started| ==> t.started[i] in t.routes)
  }

  predicate GoneAccount(lim: Limits, routes: seq<nat>, w: nat, f: nat) {
    Limited(lim, routes) ==> w <= Budget(lim, routes) && f + |routes| <= Budget(lim, routes)
  }

  predicate Account(lim: Limits, s: State, r: nat, routes: seq<nat>, w: nat, f: nat) {
    if r >= s.nextRef then r !in s.tasks && w == 0 && f == 0
    else if r in s.tasks then s.tasks[r].routes == routes && LiveAccount(s.tasks[r], w, f)
    else GoneAccount(lim, routes, w, f)
  }

  /** A word of another task, and every step that is neither a word nor a timer of `r`. */
  predicate SameWork(s: State, s': State, r: nat) {
    && s.nextRef <= s'.nextRef
    && (r in s'.tasks <==> r in s.tasks)
    && (r in s.tasks ==>
          var t, u := s.tasks[r], s'.tasks[r];
          u.routes == t.routes && u.started == t.started && u.running == t.running && |u.threads| == |t.threads|)
  }

  lemma {:induction false} Unconcerned(lim: Limits, s: State, s': State, r: nat, routes: seq<nat>, w: nat, f: nat)
    requires Account(lim, s, r, routes, w, f) && r < s.nextRef && SameWork(s, s', r)
    ensures Account(lim, s', r, routes, w, f)
  {
  }

  lemma {:induction false} WordAccount(lim: Limits, s: State, s': State, r: nat, routes: seq<nat>, w: nat, f: nat)
    requires Account(lim, s, r, routes, w, f) && r in s.tasks && r < s.nextRef && TaskOk(lim, s.tasks[r])
    requires s.tasks[r].threads != [] && s.tasks[r].running && OneThreadLess(s, s', r)
    ensures Account(lim, s', r, routes, w + 1, f)
  {
    if r !in s'.tasks && Limited(lim, routes) {
      StartedFits(lim, s.tasks[r]);
    }
  }

  lemma {:induction false} FireAccount(lim: Limits, s: State, i: nat, routes: seq<nat>, w: nat, f: nat)
    requires Inv(lim, s) && i < |s.sched.requests| && Live(s, s.sched.requests[i].data)
    requires Account(lim, s, s.sched.requests[i].data.task, routes, w, f)
    ensures Account(lim, Fire(s, i), s.sched.requests[i].data.task, routes, w, f + 1)
  {
    var r := s.sched.requests[i].data.task;
    FireTask(lim, s, i);
    assert TaskOk(lim, s.tasks[r]);
  }

  lemma {:induction false} StartAccount(lim: Limits, s: State, r: nat, routes: seq<nat>, w: nat, f: nat)
    requires r in s.tasks && TaskOk(lim, s.tasks[r]) && !s.tasks[r].running && r < s.nextRef
    requires Account(lim, s, r, routes, w, f)
    ensures Account(lim, StartTask(s, r), r, routes, w, f)
  {
    var t := s.tasks[r];
    AddThreadsForm(t.(running := true), t.routes);
  }

  function One(b: bool): (n: nat) { if b then 1 else 0 }

  lemma {:induction false} HandleAccount(lim: Limits, s: State, seconds: nat, r: nat, routes: seq<nat>, w: nat, f: nat)
    requires Inv(lim, s) && Bounded(s) && s.channel != []
    requires Account(lim, s, r, routes, w, f) && r < s.nextRef
    ensures FindsSender(s)
    ensures Account(lim, Handle(lim, s, seconds), r, routes, w + One(s.senders[0].task == r), f)
  {
    WordFindsSender(lim, s);
    assert WordOk(s, s.channel[0], s.senders[0]);
    HandleTasks(lim, s, seconds);
    var s' := Handle(lim, s, seconds);
    if r == WordTask(s) {
      assert TaskOk(lim, s.tasks[r]);
      WordAccount(lim, s, s', r, routes, w, f);
    } else {
      Unconcerned(lim, s, s', r, routes, w, f);
    }
  }

  lemma {:induction false} NextAccount(
      lim: Limits, s: State, step: Step, s': State, r: nat, routes: seq<nat>, w: nat, f: nat)
    requires Inv(lim, s) && Bounded(s) && Enabled(s, step) && Safe(s, step) && s' == Next(lim, s, step)
    requires Account(lim, s, r, routes, w, f) && r < s.nextRef
    ensures Account(lim, s', r, routes, w + One(IsWordOf(s, step, r)), f + One(IsFireOf(s, step, r)))
  {
    if step.Word? {
      HandleAccount(lim, s, step.seconds, r, routes, w, f);
    } else if IsFireOf(s, step, r) {
      FireAccount(lim, s, step.i, routes, w, f);
    } else if step == Begin(r) {
      assert TaskOk(lim, s.tasks[r]);
      StartAccount(lim, s, r, routes, w, f);
    } else {
      OtherSteps(lim, s, step, r);
      Unconcerned(lim, s, s', r, routes, w, f);
    }
  }

  /** Steps other than words leave every task there, with its routes. */
  lemma {:induction false} QuietRoutes(lim: Limits, s: State, step: Step, r: nat)
    requires Enabled(s, step) && Safe(s, step) && !step.Word? && r in s.tasks && r < s.nextRef
    ensures r in Next(lim, s, step).tasks && Next(lim, s, step).tasks[r].routes == s.tasks[r].routes
    ensures s.tasks[r].running ==> Next(lim, s, step).tasks[r].running
  {
    if step.Begin? {
      AddThreadsForm(s.tasks[step.task].(running := true), s.tasks[step.task].routes);
    }
  }

  lemma {:induction false} OtherSteps(lim: Limits, s: State, step: Step, r: nat)
    requires Enabled(s, step) && Safe(s, step) && r < s.nextRef
    requires !step.Word? && step != Begin(r) && !IsFireOf(s, step, r)
    ensures SameWork(s, Next(lim, s, step), r)
  {
  }

  /** A task whose address has not been given out yet. */
  lemma {:induction false} NewAccount(lim: Limits, s: State, step: Step, s': State, r: nat)
    requires Inv(lim, s) && Bounded(s) && Enabled(s, step) && Safe(s, step) && s' == Next(lim, s, step)
    requires r !in s.tasks && r >= s.nextRef
    ensures !IsWordOf(s, step, r) && !IsFireOf(s, step, r)
    ensures Account(lim, s', r, if r in s'.tasks then s'.tasks[r].routes else [], 0, 0)
  {
    if step.Word? {
      WordFindsSender(lim, s);
      assert WordOk(s, s.channel[0], s.senders[0]);
      HandleTasks(lim, s, step.seconds);
    }
  }

  lemma {:induction false} StepAccount(
      lim: Limits, s: State, step: Step, s': State, r: nat, routes: seq<nat>, w: nat, f: nat)
      returns (routes': seq<nat>)
    requires Inv(lim, s) && Bounded(s) && Enabled(s, step) && Safe(s, step) && s' == Next(lim, s, step)
    requires Account(lim, s, r, routes, w, f)
    ensures Account(lim, s', r, routes', w + One(IsWordOf(s, step, r)), f + One(IsFireOf(s, step, r)))
    ensures if r < s.nextRef then r < s'.nextRef && routes' == routes
            else r in s'.tasks ==> routes' == s'.tasks[r].routes
  {
    routes' := routes;
    if r < s.nextRef {
      NextAccount(lim, s, step, s', r, routes, w, f);
      RefsGrow(lim, s, step);
    } else {
      NewAccount(lim, s, step, s', r);
      routes' := if r in s'.tasks then s'.tasks[r].routes else [];
    }
  }

  lemma {:induction false} RefsGrow(lim: Limits, s: State, step: Step)
    requires Enabled(s, step) && Safe(s, step)
    ensures s.nextRef <= Next(lim, s, step).nextRef
  {
  }

  /** The routes of the task do not change while it lives. */
  predicate Routed(ss: seq<State>, n: nat, r: nat, routes: seq<nat>)
    requires n < |ss|
  {
    forall k :: 0 <= k <= n && r in ss[k].tasks ==> ss[k].tasks[r].routes == routes
  }

  lemma {:induction false} RefsAlways(lim: Limits, ss: seq<State>, steps: seq<Step>, n: nat)
    requires IsRun(lim, ss, steps) && n <= |steps|
    ensures RefsOk(ss[n])
  {
    InvAlways(lim, ss, steps, n);
  }

  lemma {:induction false} NthAccount(
      lim: Limits, ss: seq<State>, steps: seq<Step>, n: nat, r: nat, routes: seq<nat>) returns (routes': seq<nat>)
    requires IsRun(lim, ss, steps) && 1 <= n <= |steps|
    requires Account(lim, ss[n - 1], r, routes, WordsOf(ss, steps, n - 1, r), FiresOf(ss, steps, n - 1, r))
    ensures Account(lim, ss[n], r, routes', WordsOf(ss, steps, n, r), FiresOf(ss, steps, n, r))
    ensures ss[n - 1].nextRef <= ss[n].nextRef
    ensures r < ss[n - 1].nextRef ==> routes' == routes
    ensures r >= ss[n - 1].nextRef && r in ss[n].tasks ==> r < ss[n].nextRef && routes' == ss[n].tasks[r].routes
  {
    InvAlways(lim, ss, steps, n - 1);
    RefsAlways(lim, ss, steps, n);
    RunStep(lim, ss, steps, n - 1);
    RefsGrow(lim, ss[n - 1], steps[n - 1]);
    var w, f := WordsOf(ss, steps, n - 1, r), FiresOf(ss, steps, n - 1, r);
    routes' := StepAccount(lim, ss[n - 1], steps[n - 1], ss[n], r, routes, w, f);
  }

  lemma {:induction false} Accounts(lim: Limits, ss: seq<State>, steps: seq<Step>, n: nat, r: nat)
      returns (routes: seq<nat>)
    requires IsRun(lim, ss, steps) && n <= |steps|
    ensures Routed(ss, n, r, routes)
    ensures Account(lim, ss[n], r, routes, WordsOf(ss, steps, n, r), FiresOf(ss, steps, n, r))
    ensures r >= ss[n].nextRef ==> forall k :: 0 <= k <= n ==> r !in ss[k].tasks
    decreases n
  {
    if n == 0 {
      routes := [];
    } else {
      routes := Accounts(lim, ss, steps, n - 1, r);
      routes := NthAccount(lim, ss, steps, n, r, routes);
    }
  }

  /**
   Over a whole run, whatever the plugins answer and however the retries are timed, a task
   takes at most as many words, and at most as many timers beyond its first threads, as its
   retry limits allow: the sum of limit + 2 over its routes.  While it lives the number of
   words is exactly the number of its threads that have ended.
   */
  lemma {:induction false} WorkIsBounded(lim: Limits, ss: seq<State>, steps: seq<Step>, k: nat, n: nat, r: nat)
    requires IsRun(lim, ss, steps) && k <= n <= |steps| && r in ss[k].tasks
    ensures r in ss[n].tasks ==>
              WordsOf(ss, steps, n, r) == |ss[n].tasks[r].started| - |ss[n].tasks[r].threads|
    ensures Limited(lim, ss[k].tasks[r].routes) ==>
              && WordsOf(ss, steps, n, r) <= Budget(lim, ss[k].tasks[r].routes)
              && FiresOf(ss, steps, n, r) + |ss[k].tasks[r].routes| <= Budget(lim, ss[k].tasks[r].routes)
  {
    var routes := Accounts(lim, ss, steps, n, r);
    InvAlways(lim, ss, steps, n);
    if r in ss[n].tasks && Limited(lim, routes) {
      assert TaskOk(lim, ss[n].tasks[r]);
      StartedFits(lim, ss[n].tasks[r]);
      BudgetRoom(lim, routes);
    }
  }

  lemma {:induction false} BudgetRoom(lim: Limits, routes: seq<nat>)
    requires Limited(lim, routes)
    ensures Budget(lim, routes) >= |routes|
    decreases |routes|
  {
    if routes != [] {
      assert Limit(lim, routes[0]) >= 0;
      BudgetRoom(lim, routes[1..]);
    }
  }
}
