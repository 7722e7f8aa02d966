/**
 The engine over whole runs: every queued word finds the task and thread that sent it,
 retries are bounded, and exactly when a scheduled retry can outlive its task.
 */
module TaskRuns {
  import opened Folding
  import opened TaskModel
  import opened TaskInv
  import opened TaskSteps
  import S = Scheduler

  datatype Step =
    | New(routes: seq<nat>)           // flb_task_create
    | NewDirect(routes: seq<nat>)     // flb_task_create_direct
    | Begin(task: nat)                // tasks_start
    | Returns(task: nat, i: nat, ret: nat)
    | Word(seconds: nat)              // the engine handles a word; the wait a retry would get
    | Timer(i: nat)
    | Frame
    | Tick

  /** What the environment may do; it does not look at whether the engine copes. */
  predicate Enabled(s: State, step: Step) {
    match step
    case New(routes) => DistinctRoutes(routes)
    case NewDirect(routes) => DistinctRoutes(routes)
    case Begin(r) => r in s.tasks && !s.tasks[r].running
    case Returns(r, i, ret) => r in s.tasks && i < |s.tasks[r].threads| && !s.tasks[r].threads[i].returned && ret <= 2
    case Word(_) => s.channel != []
    case Timer(i) => S.Enabled(s.sched, S.Fire(i))
    case Frame => true
    case Tick => true
  }

  /** The step touches only tasks, threads and retries that are still there. */
  predicate Safe(s: State, step: Step) {
    && (step.Word? ==> Decodes(s))
    && (step.Timer? ==> step.i < |s.sched.requests| && Live(s, s.sched.requests[step.i].data))
  }

  function Next(lim: Limits, s: State, step: Step): (r: State)
    requires Enabled(s, step) && Safe(s, step)
  {
    match step
    case New(routes) => CreateRouted(s, routes)
    case NewDirect(routes) => Create(s, routes)
    case Begin(r) => StartTask(s, r)
    case Returns(r, i, ret) => Return(s, r, i, ret)
    case Word(seconds) => Handle(lim, s, seconds)
    case Timer(i) => Fire(s, i)
    case Frame => s.(sched := S.FrameTick(s.sched))
    case Tick => s.(sched := s.sched.(now := s.sched.now + 1))
  }

  // ---------------------------------------------------------------- one step

  /** The task and the thread number of the next word. */
  function WordTask(s: State): (r: nat)
    requires s.senders != []
  {
    s.senders[0].task
  }

  function WordThread(s: State): (i: nat)
    requires s.senders != [] && s.senders[0].task in s.tasks
  {
    ThreadIndex(s.tasks[s.senders[0].task].threads, s.senders[0].thread)
  }

  lemma {:induction false} HandleIs(lim: Limits, s: State, seconds: nat)
    requires FindsSender(s)
    ensures FirstFrom(s, WordTask(s), WordThread(s)) && s.tasks[WordTask(s)].slot < |s.slots|
    ensures Handle(lim, s, seconds) ==
            Handled(lim, Popped(s), WordTask(s), WordThread(s), s.senders[0].ret, seconds)
  {
  }

  lemma {:induction false} HandleKeeps(lim: Limits, s: State, seconds: nat)
    requires Inv(lim, s) && Bounded(s) && s.channel != []
    ensures FindsSender(s) && Inv(lim, Handle(lim, s, seconds))
  {
    WordFindsSender(lim, s);
    HandleIs(lim, s, seconds);
    var r, i, ret := WordTask(s), WordThread(s), s.senders[0].ret;
    assert WordOk(s, s.channel[0], s.senders[0]);
    if ret == FLB_ERROR {
      AbandonKeeps(lim, s, r, i);
    } else if ret == FLB_RETRY && !LimitReached(lim, s.tasks[r], s.tasks[r].threads[i].out) {
      RescheduleKeeps(lim, s, r, i, seconds);
    } else {
      ConcludeKeeps(lim, s, r, i);
    }
  }

  lemma {:induction false} NextKeeps(lim: Limits, s: State, step: Step)
    requires Inv(lim, s) && Bounded(s) && Enabled(s, step) && Safe(s, step)
    ensures Inv(lim, Next(lim, s, step))
  {
    match step
    case New(routes) => CreateKeeps(lim, s, routes);
    case NewDirect(routes) => CreateKeeps(lim, s, routes);
    case Begin(r) => StartKeeps(lim, s, r);
    case Returns(r, i, ret) => ReturnKeeps(lim, s, r, i, ret);
    case Word(seconds) => HandleKeeps(lim, s, seconds);
    case _ => ClockKeeps(lim, s, step);
  }

  lemma {:induction false} ClockKeeps(lim: Limits, s: State, step: Step)
    requires Inv(lim, s) && Enabled(s, step) && Safe(s, step) && (step.Timer? || step.Frame? || step.Tick?)
    ensures Inv(lim, Next(lim, s, step))
  {
    var s' := Next(lim, s, step);
    match step
    case Timer(i) => FireKeeps(lim, s, i, s');
    case Frame => FrameKeeps(lim, s, s');
    case Tick => TickKeeps(lim, s, s');
  }

  // ---------------------------------------------------------------- runs

  /** One step of a run, folded up so that a run is opened one step at a time. */
  predicate IsStep(lim: Limits, s: State, step: Step, s': State) {
    forall b {:trigger Unfold(b)} :: Unfold(b) ==>
      Bounded(s) && Enabled(s, step) && Safe(s, step) && s' == Next(lim, s, step)
  }

  predicate IsRun(lim: Limits, ss: seq<State>, steps: seq<Step>) {
    && |ss| == |steps| + 1
    && ss[0] == Init(ss[0].sched.now)
    && forall i :: 0 <= i < |steps| ==> IsStep(lim, ss[i], steps[i], ss[i + 1])
  }

  lemma {:induction false} RunStep(lim: Limits, ss: seq<State>, steps: seq<Step>, n: nat)
    requires IsRun(lim, ss, steps) && n < |steps|
    ensures Bounded(ss[n]) && Enabled(ss[n], steps[n]) && Safe(ss[n], steps[n])
    ensures ss[n + 1] == Next(lim, ss[n], steps[n])
  {
    assert IsStep(lim, ss[n], steps[n], ss[n + 1]) && Unfold(true);
  }

  lemma InitInv(lim: Limits, now: int)
    ensures Inv(lim, Init(now))
  {
    var s := Init(now);
    assert S.Owned(s.sched);
  }

  lemma {:induction false} InvAlways(lim: Limits, ss: seq<State>, steps: seq<Step>, n: nat)
    requires IsRun(lim, ss, steps) && n <= |steps|
    ensures Inv(lim, ss[n])
    decreases n
  {
    if n == 0 {
      InitInv(lim, ss[0].sched.now);
    } else {
      InvAlways(lim, ss, steps, n - 1);
      RunStep(lim, ss, steps, n - 1);
      NextKeeps(lim, ss[n - 1], steps[n - 1]);
    }
  }

  /**
   In every run, every word the engine reads decodes to a slot that still holds the very task
   that sent it, and to a thread that is still linked in that task, although slots are reused.
   */
  lemma {:induction false} EveryWordFindsItsSender(lim: Limits, ss: seq<State>, steps: seq<Step>, n: nat)
    requires IsRun(lim, ss, steps) && n <= |steps| && Bounded(ss[n]) && ss[n].channel != []
    ensures FindsSender(ss[n])
  {
    InvAlways(lim, ss, steps, n);
    WordFindsSender(lim, ss[n]);
  }

  /** With a retry limit of L a route is dispatched at most L + 2 times. */
  lemma {:induction false} RetriesAreBounded(lim: Limits, ss: seq<State>, steps: seq<Step>, n: nat, r: nat, out: nat)
    requires IsRun(lim, ss, steps) && n <= |steps|
    requires r in ss[n].tasks && out in ss[n].tasks[r].routes && Limit(lim, out) >= 0
    ensures Count(ss[n].tasks[r], out) <= Limit(lim, out) + 2
  {
    InvAlways(lim, ss, steps, n);
    assert TaskOk(lim, ss[n].tasks[r]);
    assert RouteOk(lim, ss[n].tasks[r], out);
  }

  // ---------------------------------------------------------------- dangling requests

  /** Every scheduled request belongs to a task that is still there. */
  ghost predicate NoDangling(s: State) { forall q :: Queued(s.sched, q) ==> q.data.task in s.tasks }

  /** The next word ends the last thread of a task while a request of that task is parked. */
  predicate DestroysParked(lim: Limits, s: State) {
    && s.senders != [] && s.senders[0].task in s.tasks
    && var r, i := WordTask(s), WordThread(s);
    i < |s.tasks[r].threads| && IsLast(lim, s, r, i) && HasParked(s, r)
  }

  predicate HasParked(s: State, r: nat) {
    exists k :: 0 <= k < |s.sched.waiting| && s.sched.waiting[k].data.task == r
  }

  /** A destroyed task takes its armed requests along, not its parked ones. */
  lemma {:induction false} GoneDangling(s: State, s': State, r: nat)
    requires NoDangling(s) && s'.tasks == s.tasks - {r} && s'.sched.waiting == s.sched.waiting
    requires forall q :: q in s'.sched.requests ==> q in s.sched.requests && q.data.task != r
    ensures NoDangling(s') <==> !HasParked(s, r)
  {
    if HasParked(s, r) {
      var k :| 0 <= k < |s.sched.waiting| && s.sched.waiting[k].data.task == r;
      assert Queued(s'.sched, s.sched.waiting[k]);
    } else {
      forall q | Queued(s'.sched, q) ensures q.data.task in s'.tasks {
        assert Queued(s.sched, q);
      }
    }
  }

  lemma {:induction false} SettleDangling(lim: Limits, s: State, r: nat, i: nat, u: Task)
    requires Inv(lim, s) && FirstFrom(s, r, i) && Ends(lim, s, r, i, u, s.nextRef) && NoDangling(s)
    ensures NoDangling(Settle(Popped(s), r, u)) <==> !(u.users == 0 && HasParked(s, r))
  {
    var s' := Settle(Popped(s), r, u);
    if u.users == 0 {
      SettleKeeps(lim, s, r, i, u);
      assert forall q :: q in s.sched.requests ==> Queued(s.sched, q);
      InvalidateAllShrinks(s.sched, r, u.retries);
      GoneDangling(s, s', r);
    } else {
      forall q | Queued(s'.sched, q) ensures q.data.task in s'.tasks {
        assert Queued(s.sched, q);
      }
    }
  }

  /** The next word ends the last thread of its task, and no retry is scheduled for it. */
  predicate IsLast(lim: Limits, s: State, r: nat, i: nat)
    requires r in s.tasks && i < |s.tasks[r].threads| && s.senders != []
  {
    && s.tasks[r].users == 1
    && !(s.senders[0].ret == FLB_RETRY && !LimitReached(lim, s.tasks[r], s.tasks[r].threads[i].out))
  }

  lemma {:induction false} HandledDangling(lim: Limits, s: State, r: nat, i: nat, ret: nat, seconds: nat)
    requires Inv(lim, s) && FirstFrom(s, r, i) && NoDangling(s) && s.tasks[r].slot < |s.slots|
    requires ret == s.senders[0].ret <= 2
    ensures NoDangling(Handled(lim, Popped(s), r, i, ret, seconds)) <==> !(IsLast(lim, s, r, i) && HasParked(s, r))
  {
    var t := s.tasks[r];
    if ret == FLB_ERROR {
      AbandonEnds(lim, s, r, i);
      SettleDangling(lim, s, r, i, RemoveThread(t, i));
    } else if ret == FLB_RETRY && !LimitReached(lim, t, t.threads[i].out) {
      RescheduleNoDangling(s, r, i, seconds);
    } else {
      ConcludeDangling(lim, s, r, i);
    }
  }

  lemma {:induction false} ConcludeDangling(lim: Limits, s: State, r: nat, i: nat)
    requires Inv(lim, s) && FirstFrom(s, r, i) && NoDangling(s) && s.tasks[r].slot < |s.slots|
    ensures NoDangling(Conclude(Popped(s), r, i)) <==> !(s.tasks[r].users == 1 && HasParked(s, r))
  {
    ConcludeKeeps(lim, s, r, i);
    ConcludeEnds(lim, s, r, i);
    SettleDangling(lim, s, r, i, Concluded(s.tasks[r], i));
  }

  lemma {:induction false} RescheduleNoDangling(s: State, r: nat, i: nat, seconds: nat)
    requires FirstFrom(s, r, i) && NoDangling(s)
    ensures NoDangling(Reschedule(Popped(s), r, i, seconds))
  {
    RescheduleForm(s, r, i, seconds);
    var s', t := Reschedule(Popped(s), r, i, seconds), s.tasks[r];
    var p := NextPtr(t, r, t.threads[i].out, s.nextRef);
    forall q | Queued(s'.sched, q) ensures q.data.task in s'.tasks {
      CreateQueued(s.sched, p, seconds, q);
    }
  }

  /** A word leaves a request dangling if and only if it destroys a task with a parked one. */
  lemma {:induction false} HandleDangling(lim: Limits, s: State, seconds: nat)
    requires Inv(lim, s) && Bounded(s) && s.channel != [] && NoDangling(s)
    ensures FindsSender(s)
    ensures NoDangling(Handle(lim, s, seconds)) <==> !DestroysParked(lim, s)
  {
    WordFindsSender(lim, s);
    HandleIs(lim, s, seconds);
    assert WordOk(s, s.channel[0], s.senders[0]);
    HandledDangling(lim, s, WordTask(s), WordThread(s), s.senders[0].ret, seconds);
  }

  lemma {:induction false} OthersKeepNoDangling(lim: Limits, s: State, step: Step)
    requires Inv(lim, s) && NoDangling(s) && Enabled(s, step) && Safe(s, step) && !step.Word?
    ensures NoDangling(Next(lim, s, step))
  {
    var s' := Next(lim, s, step);
    forall q | Queued(s'.sched, q) ensures q.data.task in s'.tasks {
      match step
      case Timer(i) => DestroyQueued(s.sched, i, q);
      case Frame => var w := FrameFrom(s.sched, q);
      case New(_) => assert Queued(s.sched, q);
      case NewDirect(_) => assert Queued(s.sched, q);
      case Begin(_) => assert Queued(s.sched, q);
      case Returns(_, _, _) => assert Queued(s.sched, q);
      case Tick => assert Queued(s.sched, q);
    }
  }

  /** Where nothing dangles, nothing the environment does is unsafe. */
  lemma {:induction false} NothingFaults(lim: Limits, s: State, step: Step)
    requires Inv(lim, s) && Bounded(s) && NoDangling(s) && Enabled(s, step)
    ensures Safe(s, step)
  {
    if step.Word? {
      WordFindsSender(lim, s);
    } else if step.Timer? {
      assert Queued(s.sched, s.sched.requests[step.i]);
      FireTask(lim, s, step.i);
    }
  }

  /**
   Over a whole run no request ever outlives its task, exactly when no word ends the last
   thread of a task that has a parked request.
   */
  lemma {:induction false} DanglingExactly(lim: Limits, ss: seq<State>, steps: seq<Step>, n: nat)
    requires IsRun(lim, ss, steps) && n <= |steps|
    ensures (forall k :: 0 <= k <= n ==> NoDangling(ss[k])) <==>
            (forall k :: 0 <= k < n && steps[k].Word? ==> !DestroysParked(lim, ss[k]))
    decreases n
  {
    if n > 0 {
      DanglingExactly(lim, ss, steps, n - 1);
      RunDangling(lim, ss, steps, n - 1);
    }
  }

  lemma {:induction false} RunDangling(lim: Limits, ss: seq<State>, steps: seq<Step>, n: nat)
    requires IsRun(lim, ss, steps) && n < |steps|
    ensures NoDangling(ss[n]) ==> (NoDangling(ss[n + 1]) <==> !(steps[n].Word? && DestroysParked(lim, ss[n])))
  {
    InvAlways(lim, ss, steps, n);
    RunStep(lim, ss, steps, n);
    if NoDangling(ss[n]) {
      StepDangling(lim, ss[n], steps[n], ss[n + 1]);
    }
  }

  lemma {:induction false} StepDangling(lim: Limits, s: State, step: Step, s': State)
    requires Inv(lim, s) && Bounded(s) && NoDangling(s) && Enabled(s, step) && Safe(s, step) && s' == Next(lim, s, step)
    ensures NoDangling(s') <==> !(step.Word? && DestroysParked(lim, s))
  {
    if step.Word? {
      HandleDangling(lim, s, step.seconds);
    } else {
      OthersKeepNoDangling(lim, s, step);
    }
  }
}
