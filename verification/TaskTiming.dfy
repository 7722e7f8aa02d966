/**
 Timing of retries: the scheduler of an engine run does a run of its own, so what holds of the
 scheduler holds of the retries of tasks.
 */
module TaskTiming {
  import opened TaskModel
  import opened TaskSteps
  import opened TaskRuns
  import S = Scheduler
  import TaskWord

  /** The scheduler goes from `from` to `to` by the moves. */
  ghost predicate Path(scs: seq<S.Sched>, moves: seq<S.Step>, from: S.Sched, to: S.Sched) {
    && |scs| == |moves| + 1 && scs[0] == from && scs[|moves|] == to
    && forall i :: 0 <= i < |moves| ==> S.Enabled(scs[i], moves[i]) && scs[i + 1] == S.Apply(scs[i], moves[i])
  }

  predicate NoTicks(moves: seq<S.Step>) { forall i :: 0 <= i < |moves| ==> !moves[i].Tick? }

  lemma {:induction false} OneMove(sc: S.Sched, move: S.Step)
    requires S.Enabled(sc, move)
    ensures Path([sc, S.Apply(sc, move)], [move], sc, S.Apply(sc, move))
  {
  }

  lemma {:induction false} JoinPaths(a: seq<S.Sched>, am: seq<S.Step>, b: seq<S.Sched>, bm: seq<S.Step>,
                                     x: S.Sched, y: S.Sched, z: S.Sched)
    requires Path(a, am, x, y) && Path(b, bm, y, z)
    ensures Path(a + b[1..], am + bm, x, z)
  {
    var c, cm := a + b[1..], am + bm;
    forall i | 0 <= i < |cm| ensures S.Enabled(c[i], cm[i]) && c[i + 1] == S.Apply(c[i], cm[i]) {
      if i < |am| {
        assert c[i] == a[i] && c[i + 1] == a[i + 1] && cm[i] == am[i];
      } else {
        assert c[i] == b[i - |am|] && c[i + 1] == b[i + 1 - |am|] && cm[i] == bm[i - |am|];
      }
    }
  }

  // ---------------------------------------------------------------- the moves of one step

  lemma {:induction false} InvalidateMoves(sc: S.Sched, task: nat, rs: seq<Retry>)
      returns (scs: seq<S.Sched>, moves: seq<S.Step>)
    ensures Path(scs, moves, sc, InvalidateAll(sc, task, rs)) && NoTicks(moves)
    decreases |rs|
  {
    if rs == [] {
      scs, moves := [sc], [];
    } else {
      var move := S.Drop(S.RetryPtr(task, rs[0].id));
      var sc' := S.Apply(sc, move);
      OneMove(sc, move);
      var rest, more := InvalidateMoves(sc', task, rs[1..]);
      JoinPaths([sc, sc'], [move], rest, more, sc, sc', InvalidateAll(sc, task, rs));
      scs, moves := [sc, sc'] + rest[1..], [move] + more;
    }
  }

  lemma {:induction false} SettleMoves(s: State, task: nat, u: Task) returns (scs: seq<S.Sched>, moves: seq<S.Step>)
    requires u.slot < |s.slots|
    ensures Path(scs, moves, s.sched, Settle(s, task, u).sched) && NoTicks(moves)
  {
    if u.users == 0 {
      scs, moves := InvalidateMoves(s.sched, task, u.retries);
    } else {
      scs, moves := [s.sched], [];
    }
  }

  lemma {:induction false} DropMoves(sc: S.Sched, task: nat, t: Task, out: nat)
      returns (scs: seq<S.Sched>, moves: seq<S.Step>)
    ensures Path(scs, moves, sc, DropRequest(sc, task, t, out)) && NoTicks(moves)
  {
    var k := RetryIndex(t.retries, out);
    if k < |t.retries| {
      var move := S.Drop(S.RetryPtr(task, t.retries[k].id));
      OneMove(sc, move);
      scs, moves := [sc, S.Apply(sc, move)], [move];
    } else {
      scs, moves := [sc], [];
    }
  }

  lemma {:induction false} ConcludeMoves(s: State, task: nat, i: nat) returns (scs: seq<S.Sched>, moves: seq<S.Step>)
    requires task in s.tasks && i < |s.tasks[task].threads| && s.tasks[task].slot < |s.slots|
    ensures Path(scs, moves, s.sched, Conclude(s, task, i).sched) && NoTicks(moves)
  {
    var t := s.tasks[task];
    var out := t.threads[i].out;
    var s0 := s.(sched := DropRequest(s.sched, task, t, out));
    var a, am := DropMoves(s.sched, task, t, out);
    var b, bm := SettleMoves(s0, task, RemoveThread(DropRetry(t, out), i));
    JoinPaths(a, am, b, bm, s.sched, s0.sched, Conclude(s, task, i).sched);
    scs, moves := a + b[1..], am + bm;
  }

  lemma {:induction false} HandledMoves(lim: Limits, s: State, task: nat, i: nat, ret: nat, seconds: nat)
      returns (scs: seq<S.Sched>, moves: seq<S.Step>)
    requires task in s.tasks && i < |s.tasks[task].threads| && s.tasks[task].slot < |s.slots|
    ensures Path(scs, moves, s.sched, Handled(lim, s, task, i, ret, seconds).sched) && NoTicks(moves)
  {
    var t := s.tasks[task];
    if ret == FLB_OK || (ret == FLB_RETRY && LimitReached(lim, t, t.threads[i].out)) {
      scs, moves := ConcludeMoves(s, task, i);
    } else if ret == FLB_RETRY {
      var move := S.Ask(NextPtr(t, task, t.threads[i].out, s.nextRef), seconds);
      OneMove(s.sched, move);
      scs, moves := [s.sched, S.Apply(s.sched, move)], [move];
    } else if ret == FLB_ERROR {
      scs, moves := SettleMoves(s, task, RemoveThread(t, i));
    } else {
      scs, moves := [s.sched], [];
    }
  }

  /** What a step of the engine asks of the scheduler. */
  lemma {:induction false} StepMoves(lim: Limits, s: State, step: Step) returns (scs: seq<S.Sched>, moves: seq<S.Step>)
    requires Enabled(s, step) && Safe(s, step)
    ensures Path(scs, moves, s.sched, Next(lim, s, step).sched)
    ensures if step.Tick? then moves == [S.Tick] else NoTicks(moves)
  {
    scs, moves := [s.sched], [];
    match step
    case Word(seconds) =>
      var g := TaskWord.Decode(s.channel[0]);
      var task := s.slots[g.slot].value;
      var p := s.(channel := s.channel[1..], senders := s.senders[1..]);
      scs, moves := HandledMoves(lim, p, task, ThreadIndex(s.tasks[task].threads, g.thread), g.ret, seconds);
    case Timer(i) =>
      OneMove(s.sched, S.Fire(i));
      scs, moves := [s.sched, S.Apply(s.sched, S.Fire(i))], [S.Fire(i)];
    case Frame =>
      OneMove(s.sched, S.Frame);
      scs, moves := [s.sched, S.Apply(s.sched, S.Frame)], [S.Frame];
    case Tick =>
      OneMove(s.sched, S.Tick);
      scs, moves := [s.sched, S.Apply(s.sched, S.Tick)], [S.Tick];
    case _ =>
  }

  // ---------------------------------------------------------------- the run of the scheduler

  /** The clock of the engine keeps to the frames. */
  predicate Disciplined(s: State, step: Step) { step.Tick? ==> S.Disciplined(s.sched, S.Tick) }

  ghost predicate AllDisciplined(scs: seq<S.Sched>, moves: seq<S.Step>)
    requires |scs| == |moves| + 1
  {
    forall i :: 0 <= i < |moves| ==> S.Disciplined(scs[i], moves[i])
  }

  lemma {:induction false} JoinDisciplined(a: seq<S.Sched>, am: seq<S.Step>, b: seq<S.Sched>, bm: seq<S.Step>,
                                           x: S.Sched, y: S.Sched, z: S.Sched)
    requires Path(a, am, x, y) && Path(b, bm, y, z) && AllDisciplined(a, am) && AllDisciplined(b, bm)
    ensures AllDisciplined(a + b[1..], am + bm)
  {
    var c, cm := a + b[1..], am + bm;
    forall i | 0 <= i < |cm| ensures S.Disciplined(c[i], cm[i]) {
      if i < |am| {
        assert c[i] == a[i] && cm[i] == am[i];
      } else {
        assert c[i] == b[i - |am|] && cm[i] == bm[i - |am|];
      }
    }
  }

  lemma {:induction false} MovesDisciplined(s: State, step: Step, scs: seq<S.Sched>, moves: seq<S.Step>, to: S.Sched)
    requires Path(scs, moves, s.sched, to) && Disciplined(s, step)
    requires if step.Tick? then moves == [S.Tick] else NoTicks(moves)
    ensures AllDisciplined(scs, moves)
  {
  }

  /** The scheduler of an engine run does a run of its own, with the discipline of the engine's clock. */
  lemma {:induction false} SchedulerRun(lim: Limits, ss: seq<State>, steps: seq<Step>, n: nat)
      returns (scs: seq<S.Sched>, moves: seq<S.Step>)
    requires IsRun(lim, ss, steps) && n <= |steps|
    ensures S.IsRun(scs, moves) && scs[|moves|] == ss[n].sched
    ensures (forall i :: 0 <= i < n ==> Disciplined(ss[i], steps[i])) ==> AllDisciplined(scs, moves)
    decreases n
  {
    if n == 0 {
      scs, moves := [ss[0].sched], [];
    } else {
      var a, am := SchedulerRun(lim, ss, steps, n - 1);
      RunStep(lim, ss, steps, n - 1);
      var b, bm := StepMoves(lim, ss[n - 1], steps[n - 1]);
      scs, moves := Append(a, am, b, bm, ss[n - 1], steps[n - 1], ss[n].sched);
    }
  }

  lemma {:induction false} Append(a: seq<S.Sched>, am: seq<S.Step>, b: seq<S.Sched>, bm: seq<S.Step>,
                                  s: State, step: Step, to: S.Sched) returns (scs: seq<S.Sched>, moves: seq<S.Step>)
    requires S.IsRun(a, am) && a[|am|] == s.sched && Path(b, bm, s.sched, to)
    requires if step.Tick? then bm == [S.Tick] else NoTicks(bm)
    ensures S.IsRun(scs, moves) && scs[|moves|] == to
    ensures AllDisciplined(a, am) && Disciplined(s, step) ==> AllDisciplined(scs, moves)
  {
    scs, moves := a + b[1..], am + bm;
    JoinPaths(a, am, b, bm, a[0], s.sched, to);
    if AllDisciplined(a, am) && Disciplined(s, step) {
      MovesDisciplined(s, step, b, bm, to);
      JoinDisciplined(a, am, b, bm, a[0], s.sched, to);
    }
  }

  /**
   In every run of the engine no retry fires before its time; and where the clock does not run
   past expired timers nor more than a frame past a frame tick, every retry fires at exactly
   its time.
   */
  lemma {:induction false} RetriesFireOnTime(lim: Limits, ss: seq<State>, steps: seq<Step>, n: nat)
    requires IsRun(lim, ss, steps) && n < |steps| && steps[n].Timer?
    ensures steps[n].i < |ss[n].sched.requests|
    ensures var q := ss[n].sched.requests[steps[n].i];
            && q.created + q.timeout <= ss[n].sched.now
            && ((forall i :: 0 <= i < n ==> Disciplined(ss[i], steps[i])) ==> q.created + q.timeout == ss[n].sched.now)
  {
    RunStep(lim, ss, steps, n);
    var scs, moves := SchedulerRun(lim, ss, steps, n);
    var fire := S.Fire(steps[n].i);
    S.Extend(scs, moves, fire);
    var scs', moves' := scs + [S.Apply(scs[|moves|], fire)], moves + [fire];
    S.NeverEarly(scs', moves', |moves|);
    if forall i :: 0 <= i < n ==> Disciplined(ss[i], steps[i]) {
      forall i | 0 <= i < |moves| ensures S.Disciplined(scs'[i], moves'[i]) {
        assert scs'[i] == scs[i] && moves'[i] == moves[i];
      }
      S.ExactlyOnTime(scs', moves', |moves|);
    }
  }
}
