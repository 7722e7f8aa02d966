/**
 The states of a route: with a thread at work, waiting for a scheduled retry, or finished;
 never two of them, and finished for good.
 */
module TaskRoutes {
  import opened TaskModel
  import opened TaskInv
  import opened TaskSteps
  import opened TaskRuns
  import opened TaskLife
  import S = Scheduler

  /** A request for the retry is scheduled. */
  ghost predicate Asked(sc: S.Sched, p: S.RetryPtr) { exists q :: Queued(sc, q) && q.data == p }

  ghost predicate Scheduled(s: State, r: nat, out: nat)
    requires r in s.tasks
  {
    exists k :: 0 <= k < |s.tasks[r].retries| && s.tasks[r].retries[k].out == out &&
      Asked(s.sched, S.RetryPtr(r, s.tasks[r].retries[k].id))
  }

  ghost predicate Finished(s: State, r: nat, out: nat) {
    r in s.tasks && s.tasks[r].running && !HasThread(s.tasks[r], out) && !Scheduled(s, r, out)
  }

  /** A route with a thread waits for no retry. */
  lemma {:induction false} ThreadOrRetry(lim: Limits, s: State, r: nat, out: nat)
    requires Inv(lim, s) && r in s.tasks && HasThread(s.tasks[r], out)
    ensures !Scheduled(s, r, out)
  {
    var t := s.tasks[r];
    assert TaskOk(lim, t);
    forall k | 0 <= k < |t.retries| && t.retries[k].out == out
      ensures !Asked(s.sched, S.RetryPtr(r, t.retries[k].id))
    {
      var id := t.retries[k].id;
      FirstRetryId(t.retries, id, k);
      forall q | Queued(s.sched, q) ensures q.data != S.RetryPtr(r, id) {
        assert RequestOk(s, q);
      }
    }
  }

  /** Nothing new for the route: no thread and no request that was not there before. */
  ghost predicate NothingNew(s: State, s': State, r: nat, out: nat)
    requires r in s.tasks && r in s'.tasks
  {
    var t, u := s.tasks[r], s'.tasks[r];
    && u.running == t.running && (HasThread(u, out) ==> HasThread(t, out))
    && (forall k ::
          0 <= k < |u.retries| && u.retries[k].out == out && Asked(s'.sched, S.RetryPtr(r, u.retries[k].id)) ==>
          u.retries[k] in t.retries && Asked(s.sched, S.RetryPtr(r, u.retries[k].id)))
  }

  lemma {:induction false} StaysFinished(s: State, s': State, r: nat, out: nat)
    requires Finished(s, r, out) && r in s'.tasks && NothingNew(s, s', r, out)
    ensures Finished(s', r, out)
  {
  }

  /** Requests of the task that are scheduled later were scheduled before. */
  ghost predicate NoneAsked(sc: S.Sched, sc': S.Sched, r: nat) {
    forall q :: Queued(sc', q) && q.data.task == r ==> Asked(sc, q.data)
  }

  lemma {:induction false} OtherTask(s: State, s': State, r: nat, out: nat)
    requires r in s.tasks && r in s'.tasks && s'.tasks[r] == s.tasks[r] && NoneAsked(s.sched, s'.sched, r)
    ensures NothingNew(s, s', r, out)
  {
  }

  lemma {:induction false} InvalidateAsks(sc: S.Sched, p: S.RetryPtr, r: nat)
    ensures NoneAsked(sc, S.Invalidate(sc, p), r)
  {
    forall q | Queued(S.Invalidate(sc, p), q) ensures Queued(sc, q) {
    }
  }

  lemma {:induction false} InvalidateAllAsks(sc: S.Sched, task: nat, rs: seq<Retry>, r: nat)
    ensures NoneAsked(sc, InvalidateAll(sc, task, rs), r)
    decreases |rs|
  {
    if rs != [] {
      var sc' := S.Invalidate(sc, S.RetryPtr(task, rs[0].id));
      InvalidateAsks(sc, S.RetryPtr(task, rs[0].id), r);
      InvalidateAllAsks(sc', task, rs[1..], r);
      forall q | Queued(InvalidateAll(sc, task, rs), q) && q.data.task == r ensures Asked(sc, q.data) {
        assert Asked(sc', q.data);
      }
    }
  }

  lemma {:induction false} DropAsks(sc: S.Sched, task: nat, t: Task, out: nat, r: nat)
    ensures NoneAsked(sc, DropRequest(sc, task, t, out), r)
  {
    var k := RetryIndex(t.retries, out);
    if k < |t.retries| {
      InvalidateAsks(sc, S.RetryPtr(task, t.retries[k].id), r);
    }
  }

  lemma {:induction false} SettleAsks(s: State, task: nat, u: Task, r: nat)
    requires u.slot < |s.slots|
    ensures NoneAsked(s.sched, Settle(s, task, u).sched, r)
  {
    InvalidateAllAsks(s.sched, task, u.retries, r);
  }

  lemma {:induction false} FrameAsks(sc: S.Sched, r: nat)
    requires S.Owned(sc)
    ensures NoneAsked(sc, S.FrameTick(sc), r)
  {
    forall q | Queued(S.FrameTick(sc), q) ensures Asked(sc, q.data) {
      var w := FrameFrom(sc, q);
    }
  }

  lemma {:induction false} DestroyAsks(sc: S.Sched, i: nat, r: nat)
    requires S.Owned(sc) && i < |sc.requests|
    ensures NoneAsked(sc, S.Destroy(sc, i), r)
  {
    forall q | Queued(S.Destroy(sc, i), q) ensures Queued(sc, q) {
      DestroyQueued(sc, i, q);
    }
  }

  // ---------------------------------------------------------------- a word

  /** A thread goes, perhaps with its retry. */
  lemma {:induction false} EndsNew(s: State, s0: State, r: nat, u: Task, x: nat, out: nat)
    requires r in s.tasks && x in s.tasks && u.slot < |s0.slots| && s0.tasks == s.tasks
    requires NoneAsked(s.sched, s0.sched, x)
    requires u.running == s.tasks[r].running && forall k :: 0 <= k < |u.retries| ==> u.retries[k] in s.tasks[r].retries
    requires HasThread(u, out) ==> HasThread(s.tasks[r], out)
    ensures var s' := Settle(s0, r, u);
            x in s'.tasks ==> NothingNew(s, s', x, out)
  {
    var s' := Settle(s0, r, u);
    SettleAsks(s0, r, u, x);
    forall q | Queued(s'.sched, q) && q.data.task == x ensures Asked(s.sched, q.data) {
      assert Asked(s0.sched, q.data);
    }
  }

  lemma {:induction false} AbandonNew(s: State, r: nat, i: nat, x: nat, out: nat)
    requires FirstFrom(s, r, i) && s.tasks[r].slot < |s.slots| && x in s.tasks && ThreadsOk(s.tasks[r])
    ensures var s' := Abandon(Popped(s), r, i);
            x in s'.tasks ==> NothingNew(s, s', x, out)
  {
    var t := s.tasks[r];
    RemoveOuts(t, i);
    EndsNew(s, Popped(s), r, RemoveThread(t, i), x, out);
  }

  lemma {:induction false} DroppedFrom(t: Task, out: nat)
    ensures forall k :: 0 <= k < |DropRetry(t, out).retries| ==> DropRetry(t, out).retries[k] in t.retries
    ensures DropRetry(t, out) == t.(retries := DropRetry(t, out).retries)
  {
  }

  lemma {:induction false} ConcludeNew(s: State, r: nat, i: nat, x: nat, out: nat)
    requires FirstFrom(s, r, i) && s.tasks[r].slot < |s.slots| && x in s.tasks && ThreadsOk(s.tasks[r])
    ensures var s' := Conclude(Popped(s), r, i);
            x in s'.tasks ==> NothingNew(s, s', x, out)
  {
    var t := s.tasks[r];
    var o := t.threads[i].out;
    DroppedFrom(t, o);
    RemoveOuts(DropRetry(t, o), i);
    DropAsks(s.sched, r, t, o, x);
    EndsNew(s, Popped(s).(sched := DropRequest(s.sched, r, t, o)), r, RemoveThread(DropRetry(t, o), i), x, out);
  }

  /** A new request is for the retry of the thread that asked. */
  lemma {:induction false} CreateAsks(sc: S.Sched, p: S.RetryPtr, seconds: nat, d: S.RetryPtr)
    requires Asked(S.Create(sc, p, seconds), d) && d != p
    ensures Asked(sc, d)
  {
    var q :| Queued(S.Create(sc, p, seconds), q) && q.data == d;
    CreateQueued(sc, p, seconds, q);
  }

  /** Of the other outputs the retries are as before, and none has the address of the new one. */
  lemma {:induction false} MoreRetryElse(t: Task, out: nat, ref: nat, k: nat)
    requires RetriesOk(t) && forall j :: 0 <= j < |t.retries| ==> t.retries[j].id < ref
    requires var m := MoreRetry(t, out, ref);
             k < |m.retries| && m.retries[k].out != out
    ensures var m := MoreRetry(t, out, ref);
            m.retries[k] in t.retries && m.retries[k].id != m.retries[RetryIndex(m.retries, out)].id
  {
    var m, j := MoreRetry(t, out, ref), RetryIndex(t.retries, out);
    FirstRetry(m.retries, out, j);
    assert k < |t.retries| && m.retries[k] == t.retries[k];
  }

  lemma {:induction false} RescheduleNew(s: State, r: nat, i: nat, seconds: nat, out: nat)
    requires FirstFrom(s, r, i) && ThreadsOk(s.tasks[r]) && RetriesOk(s.tasks[r]) && s.tasks[r].threads[i].out != out
    requires forall j :: 0 <= j < |s.tasks[r].retries| ==> s.tasks[r].retries[j].id < s.nextRef
    ensures NothingNew(s, Reschedule(Popped(s), r, i, seconds), r, out)
  {
    RescheduleForm(s, r, i, seconds);
    var t, s' := s.tasks[r], Reschedule(Popped(s), r, i, seconds);
    var o := t.threads[i].out;
    var m, p := MoreRetry(t, o, s.nextRef), NextPtr(t, r, o, s.nextRef);
    RemoveOuts(m, i);
    SameOuts(t, m, out);
    forall k | 0 <= k < |m.retries| && m.retries[k].out == out && Asked(s'.sched, S.RetryPtr(r, m.retries[k].id))
      ensures m.retries[k] in t.retries && Asked(s.sched, S.RetryPtr(r, m.retries[k].id))
    {
      MoreRetryElse(t, o, s.nextRef, k);
      CreateAsks(s.sched, p, seconds, S.RetryPtr(r, m.retries[k].id));
    }
  }

  lemma {:induction false} RescheduleElse(s: State, r: nat, i: nat, seconds: nat, x: nat, out: nat)
    requires FirstFrom(s, r, i) && x in s.tasks && x != r
    ensures NothingNew(s, Reschedule(Popped(s), r, i, seconds), x, out)
  {
    RescheduleForm(s, r, i, seconds);
    var s' := Reschedule(Popped(s), r, i, seconds);
    var p := NextPtr(s.tasks[r], r, s.tasks[r].threads[i].out, s.nextRef);
    forall q | Queued(s'.sched, q) && q.data.task == x ensures Asked(s.sched, q.data) {
      assert Asked(s'.sched, q.data);
      CreateAsks(s.sched, p, seconds, q.data);
    }
    OtherTask(s, s', x, out);
  }

  lemma {:induction false} HandledFinished(lim: Limits, s: State, seconds: nat, x: nat, out: nat)
    requires Inv(lim, s) && Bounded(s) && s.channel != [] && Finished(s, x, out)
    ensures FindsSender(s)
    ensures x in Handle(lim, s, seconds).tasks ==> NothingNew(s, Handle(lim, s, seconds), x, out)
  {
    WordFindsSender(lim, s);
    HandleIs(lim, s, seconds);
    var r, i, ret := WordTask(s), WordThread(s), s.senders[0].ret;
    assert WordOk(s, s.channel[0], s.senders[0]);
    assert TaskOk(lim, s.tasks[r]);
    if ret == FLB_ERROR {
      AbandonNew(s, r, i, x, out);
    } else if ret == FLB_RETRY && !LimitReached(lim, s.tasks[r], s.tasks[r].threads[i].out) {
      if x == r {
        assert HasThread(s.tasks[r], s.tasks[r].threads[i].out);
        RescheduleNew(s, r, i, seconds, out);
      } else {
        RescheduleElse(s, r, i, seconds, x, out);
      }
    } else {
      ConcludeNew(s, r, i, x, out);
    }
  }

  // ---------------------------------------------------------------- the other steps

  lemma {:induction false} FireFinished(s: State, i: nat, x: nat, out: nat)
    requires S.Owned(s.sched) && Finished(s, x, out) && i < |s.sched.requests| && Live(s, s.sched.requests[i].data)
    ensures NothingNew(s, Fire(s, i), x, out)
  {
    var q, s' := s.sched.requests[i], Fire(s, i);
    DestroyAsks(s.sched, i, x);
    if x == q.data.task {
      assert Queued(s.sched, q);
      var t := s.tasks[x];
      var k := RetryAt(t.retries, q.data.id);
      assert Asked(s.sched, S.RetryPtr(x, t.retries[k].id));
      assert t.retries[k].out != out;
      forall j | 0 <= j < |t.retries| && Asked(s'.sched, S.RetryPtr(x, t.retries[j].id))
        ensures Asked(s.sched, S.RetryPtr(x, t.retries[j].id))
      {
      }
    } else {
      OtherTask(s, s', x, out);
    }
  }

  lemma {:induction false} QuietFinished(lim: Limits, s: State, step: Step, x: nat, out: nat)
    requires Inv(lim, s) && Enabled(s, step) && Safe(s, step) && !step.Word? && !step.Timer? && Finished(s, x, out)
    ensures x in Next(lim, s, step).tasks && NothingNew(s, Next(lim, s, step), x, out)
  {
    var s' := Next(lim, s, step);
    if step.Frame? {
      FrameAsks(s.sched, x);
      OtherTask(s, s', x, out);
    } else if step.Returns? && step.task == x {
      SameOuts(s.tasks[x], s'.tasks[x], out);
    } else {
      QuietSched(lim, s, step, x);
      OtherTask(s, s', x, out);
    }
  }

  lemma {:induction false} QuietSched(lim: Limits, s: State, step: Step, x: nat)
    requires Enabled(s, step) && Safe(s, step) && x in s.tasks && x < s.nextRef && s.tasks[x].running
    requires !step.Word? && !step.Timer? && !step.Frame? && !(step.Returns? && step.task == x)
    ensures x in Next(lim, s, step).tasks && Next(lim, s, step).tasks[x] == s.tasks[x]
    ensures NoneAsked(s.sched, Next(lim, s, step).sched, x)
  {
    forall q | Queued(Next(lim, s, step).sched, q) ensures Queued(s.sched, q) {
    }
  }

  lemma {:induction false} NextFinished(lim: Limits, s: State, step: Step, x: nat, out: nat)
    requires Inv(lim, s) && Bounded(s) && Enabled(s, step) && Safe(s, step) && Finished(s, x, out)
    ensures x in Next(lim, s, step).tasks ==> Finished(Next(lim, s, step), x, out)
  {
    var s' := Next(lim, s, step);
    if step.Word? {
      HandledFinished(lim, s, step.seconds, x, out);
    } else if step.Timer? {
      FireFinished(s, step.i, x, out);
    } else {
      QuietFinished(lim, s, step, x, out);
    }
    if x in s'.tasks {
      StaysFinished(s, s', x, out);
    }
  }

  // ---------------------------------------------------------------- a route that is not finished

  /** A thread at work or a scheduled retry. */
  ghost predicate InHand(s: State, r: nat, out: nat)
    requires r in s.tasks
  {
    HasThread(s.tasks[r], out) || Scheduled(s, r, out)
  }

  /** Threads and retries of the output are still there, and so are the requests. */
  ghost predicate Kept(s: State, s': State, r: nat, out: nat)
    requires r in s.tasks && r in s'.tasks
  {
    var t, u := s.tasks[r], s'.tasks[r];
    && (HasThread(t, out) ==> HasThread(u, out))
    && (forall k ::
          0 <= k < |t.retries| && t.retries[k].out == out && Asked(s.sched, S.RetryPtr(r, t.retries[k].id)) ==>
          Asked(s'.sched, S.RetryPtr(r, t.retries[k].id)) &&
          exists j :: 0 <= j < |u.retries| && u.retries[j].out == out && u.retries[j].id == t.retries[k].id)
  }

  lemma {:induction false} KeptInHand(s: State, s': State, r: nat, out: nat)
    requires r in s.tasks && r in s'.tasks && InHand(s, r, out) && Kept(s, s', r, out)
    ensures InHand(s', r, out)
  {
  }

  lemma {:induction false} SameTaskKept(s: State, s': State, r: nat, out: nat)
    requires r in s.tasks && r in s'.tasks && (HasThread(s.tasks[r], out) ==> HasThread(s'.tasks[r], out))
    requires s'.tasks[r].retries == s.tasks[r].retries
    requires forall id :: Asked(s.sched, S.RetryPtr(r, id)) ==> Asked(s'.sched, S.RetryPtr(r, id))
    ensures Kept(s, s', r, out)
  {
  }

  lemma {:induction false} SparedAsked(s: State, s': State, x: nat, r: nat)
    requires Spares(s, s', x) && r != x
    ensures forall id :: Asked(s.sched, S.RetryPtr(r, id)) ==> Asked(s'.sched, S.RetryPtr(r, id))
  {
    forall id | Asked(s.sched, S.RetryPtr(r, id)) ensures Asked(s'.sched, S.RetryPtr(r, id)) {
      var q :| Queued(s.sched, q) && q.data == S.RetryPtr(r, id);
      assert Queued(s'.sched, q);
    }
  }

  // ---------------------------------------------------------------- ... after a word of another output

  lemma {:induction false} DropKept(t: Task, o: nat, out: nat, k: nat)
    requires o != out && k < |t.retries| && t.retries[k].out == out
    ensures exists j :: 0 <= j < |DropRetry(t, o).retries| && DropRetry(t, o).retries[j] == t.retries[k]
  {
    var i, u := RetryIndex(t.retries, o), DropRetry(t, o);
    if i < |t.retries| {
      assert u.retries[if k < i then k else k - 1] == t.retries[k];
    }
  }

  lemma {:induction false} DropAsked(sc: S.Sched, r: nat, t: Task, o: nat, id: nat)
    requires Asked(sc, S.RetryPtr(r, id)) && S.Owned(sc)
    requires forall k :: 0 <= k < |t.retries| && t.retries[k].out == o ==> t.retries[k].id != id
    ensures Asked(DropRequest(sc, r, t, o), S.RetryPtr(r, id))
  {
    var q :| Queued(sc, q) && q.data == S.RetryPtr(r, id);
    var k := RetryIndex(t.retries, o);
    if k < |t.retries| {
      InvalidateSpares(sc, S.RetryPtr(r, t.retries[k].id), q);
    }
  }

  lemma {:induction false} MoreKept(t: Task, o: nat, ref: nat, out: nat, k: nat)
    requires o != out && k < |t.retries| && t.retries[k].out == out
    ensures k < |MoreRetry(t, o, ref).retries| && MoreRetry(t, o, ref).retries[k] == t.retries[k]
  {
  }

  lemma {:induction false} AbandonKept(s: State, r: nat, i: nat, out: nat)
    requires FirstFrom(s, r, i) && s.tasks[r].slot < |s.slots| && ThreadsOk(s.tasks[r])
    requires s.tasks[r].threads[i].out != out
    ensures var s' := Abandon(Popped(s), r, i);
            r in s'.tasks ==> Kept(s, s', r, out)
  {
    RemoveOuts(s.tasks[r], i);
    var s' := Abandon(Popped(s), r, i);
    if r in s'.tasks {
      SameTaskKept(s, s', r, out);
    }
  }

  lemma {:induction false} ConcludeKept(s: State, r: nat, i: nat, out: nat)
    requires FirstFrom(s, r, i) && s.tasks[r].slot < |s.slots| && S.Owned(s.sched)
    requires ThreadsOk(s.tasks[r]) && RetriesOk(s.tasks[r]) && s.tasks[r].threads[i].out != out
    ensures var s' := Conclude(Popped(s), r, i);
            r in s'.tasks ==> Kept(s, s', r, out)
  {
    var t, s' := s.tasks[r], Conclude(Popped(s), r, i);
    var o := t.threads[i].out;
    DroppedFrom(t, o);
    RemoveOuts(DropRetry(t, o), i);
    SameOuts(t, DropRetry(t, o), out);
    if r in s'.tasks {
      forall k | 0 <= k < |t.retries| && t.retries[k].out == out && Asked(s.sched, S.RetryPtr(r, t.retries[k].id))
        ensures Asked(s'.sched, S.RetryPtr(r, t.retries[k].id))
        ensures exists j :: 0 <= j < |s'.tasks[r].retries| && s'.tasks[r].retries[j].out == out &&
                  s'.tasks[r].retries[j].id == t.retries[k].id
      {
        DropKept(t, o, out, k);
        DropAsked(s.sched, r, t, o, t.retries[k].id);
      }
    }
  }

  lemma {:induction false} RescheduleKept(s: State, r: nat, i: nat, seconds: nat, out: nat)
    requires FirstFrom(s, r, i) && ThreadsOk(s.tasks[r]) && s.tasks[r].threads[i].out != out
    ensures Kept(s, Reschedule(Popped(s), r, i, seconds), r, out)
  {
    RescheduleForm(s, r, i, seconds);
    var t, s' := s.tasks[r], Reschedule(Popped(s), r, i, seconds);
    var o := t.threads[i].out;
    var m := MoreRetry(t, o, s.nextRef);
    RemoveOuts(m, i);
    SameOuts(t, m, out);
    CreateSchedules(s.sched, NextPtr(t, r, o, s.nextRef), seconds);
    assert s'.tasks[r].retries == m.retries;
    forall k | 0 <= k < |t.retries| && t.retries[k].out == out && Asked(s.sched, S.RetryPtr(r, t.retries[k].id))
      ensures Asked(s'.sched, S.RetryPtr(r, t.retries[k].id))
      ensures k < |s'.tasks[r].retries| && s'.tasks[r].retries[k] == t.retries[k]
    {
      MoreKept(t, o, s.nextRef, out, k);
      var q :| Queued(s.sched, q) && q.data == S.RetryPtr(r, t.retries[k].id);
      assert Queued(s'.sched, q);
    }
  }

  /** The next word is from the thread of the output. */
  predicate IsWordFor(s: State, r: nat, out: nat) {
    && s.senders != [] && s.senders[0].task == r && r in s.tasks
    && WordThread(s) < |s.tasks[r].threads| && s.tasks[r].threads[WordThread(s)].out == out
  }

  /** A word of another task. */
  lemma {:induction false} ElseKept(lim: Limits, s: State, seconds: nat, r: nat, out: nat)
    requires FindsSender(s) && s.senders[0].ret <= 2 && S.Owned(s.sched) && r in s.tasks && WordTask(s) != r
    ensures r in Handle(lim, s, seconds).tasks && Kept(s, Handle(lim, s, seconds), r, out)
  {
    HandleTasks(lim, s, seconds);
    HandleIs(lim, s, seconds);
    var s' := Handle(lim, s, seconds);
    HandledSpares(lim, s, WordTask(s), WordThread(s), s.senders[0].ret, seconds);
    SparedAsked(s, s', WordTask(s), r);
    SameTaskKept(s, s', r, out);
  }

  lemma {:induction false} HandledSpares(lim: Limits, s: State, r: nat, i: nat, ret: nat, seconds: nat)
    requires FirstFrom(s, r, i) && s.tasks[r].slot < |s.slots| && S.Owned(s.sched) && ret <= 2
    ensures Spares(s, Handled(lim, Popped(s), r, i, ret, seconds), r)
  {
    var t := s.tasks[r];
    var out := t.threads[i].out;
    if ret == FLB_ERROR {
      SettleSpares(s, r, RemoveThread(t, i));
    } else if ret == FLB_RETRY && !LimitReached(lim, t, out) {
      RescheduleForm(s, r, i, seconds);
      CreateSchedules(s.sched, NextPtr(t, r, out, s.nextRef), seconds);
    } else {
      ConcludeSpares(s, r, i);
    }
  }

  lemma {:induction false} ConcludeSpares(s: State, r: nat, i: nat)
    requires FirstFrom(s, r, i) && s.tasks[r].slot < |s.slots| && S.Owned(s.sched)
    ensures Spares(s, Conclude(Popped(s), r, i), r)
  {
    var t := s.tasks[r];
    var out := t.threads[i].out;
    var sc, u := DropRequest(s.sched, r, t, out), RemoveThread(DropRetry(t, out), i);
    forall q | Queued(s.sched, q) && q.data.task != r ensures Queued(sc, q) {
      var k := RetryIndex(t.retries, out);
      if k < |t.retries| {
        InvalidateSpares(s.sched, S.RetryPtr(r, t.retries[k].id), q);
      }
    }
    if u.users == 0 {
      InvalidateAllSpares(sc, r, u.retries);
    }
  }

  /** A word of another output of the same task. */
  lemma {:induction false} BesideKept(lim: Limits, s: State, seconds: nat, r: nat, out: nat)
    requires Inv(lim, s) && FindsSender(s) && s.senders[0].ret <= 2 && WordTask(s) == r && !IsWordFor(s, r, out)
    ensures r in Handle(lim, s, seconds).tasks ==> Kept(s, Handle(lim, s, seconds), r, out)
  {
    HandleIs(lim, s, seconds);
    var i, ret := WordThread(s), s.senders[0].ret;
    assert TaskOk(lim, s.tasks[r]);
    if ret == FLB_ERROR {
      AbandonKept(s, r, i, out);
    } else if ret == FLB_RETRY && !LimitReached(lim, s.tasks[r], s.tasks[r].threads[i].out) {
      RescheduleKept(s, r, i, seconds, out);
    } else {
      ConcludeKept(s, r, i, out);
    }
  }

  lemma {:induction false} WordKept(lim: Limits, s: State, seconds: nat, r: nat, out: nat)
    requires Inv(lim, s) && Bounded(s) && s.channel != [] && r in s.tasks && !IsWordFor(s, r, out)
    ensures FindsSender(s) && (r in Handle(lim, s, seconds).tasks ==> Kept(s, Handle(lim, s, seconds), r, out))
  {
    WordFindsSender(lim, s);
    assert WordOk(s, s.channel[0], s.senders[0]);
    if WordTask(s) == r {
      BesideKept(lim, s, seconds, r, out);
    } else {
      ElseKept(lim, s, seconds, r, out);
    }
  }

  // ---------------------------------------------------------------- ... and after the other steps

  /** A timer gives its output a thread and leaves the other requests. */
  lemma {:induction false} FireInHand(s: State, i: nat, r: nat, out: nat)
    requires i < |s.sched.requests| && Live(s, s.sched.requests[i].data)
    requires r in s.tasks && RetriesOk(s.tasks[r]) && InHand(s, r, out)
    ensures InHand(Fire(s, i), r, out)
  {
    var q, s' := s.sched.requests[i], Fire(s, i);
    var x := q.data.task;
    var k := RetryAt(s.tasks[x].retries, q.data.id);
    var o := s.tasks[x].retries[k].out;
    AddOuts(s.tasks[x], o, out);
    if r != x || o != out {
      forall j | 0 <= j < |s.tasks[r].retries| && s.tasks[r].retries[j].out == out &&
                 Asked(s.sched, S.RetryPtr(r, s.tasks[r].retries[j].id))
        ensures Asked(s'.sched, S.RetryPtr(r, s.tasks[r].retries[j].id))
      {
        var w :| Queued(s.sched, w) && w.data == S.RetryPtr(r, s.tasks[r].retries[j].id);
        DestroySpares(s.sched, i, w);
      }
    }
  }

  lemma {:induction false} FrameInHand(s: State, r: nat, out: nat)
    requires r in s.tasks && InHand(s, r, out)
    ensures InHand(s.(sched := S.FrameTick(s.sched)), r, out)
  {
    var s' := s.(sched := S.FrameTick(s.sched));
    forall id | Asked(s.sched, S.RetryPtr(r, id)) ensures Asked(s'.sched, S.RetryPtr(r, id)) {
      var q :| Queued(s.sched, q) && q.data == S.RetryPtr(r, id);
      if q in s.sched.waiting {
        FrameQueues(s.sched.waiting, s.sched.now, q);
        assert Queued(s'.sched, q) || Queued(s'.sched, S.Arm(q, S.Left(q, s.sched.now), s.sched.now));
      } else {
        assert Queued(s'.sched, q);
      }
    }
    SameTaskKept(s, s', r, out);
    KeptInHand(s, s', r, out);
  }

  lemma {:induction false} QuietInHand(lim: Limits, s: State, step: Step, r: nat, out: nat)
    requires Enabled(s, step) && Safe(s, step) && !step.Word? && !step.Timer? && !step.Frame?
    requires r in s.tasks && r < s.nextRef && s.tasks[r].running && InHand(s, r, out)
    ensures r in Next(lim, s, step).tasks && InHand(Next(lim, s, step), r, out)
  {
    var s' := Next(lim, s, step);
    forall id | Asked(s.sched, S.RetryPtr(r, id)) ensures Asked(s'.sched, S.RetryPtr(r, id)) {
      var q :| Queued(s.sched, q) && q.data == S.RetryPtr(r, id);
      assert Queued(s'.sched, q);
    }
    if step.Returns? && step.task == r {
      SameOuts(s.tasks[r], s'.tasks[r], out);
    }
    SameTaskKept(s, s', r, out);
    KeptInHand(s, s', r, out);
  }

  /** Only a word of its own can finish a route. */
  lemma {:induction false} NextInHand(lim: Limits, s: State, step: Step, r: nat, out: nat)
    requires Inv(lim, s) && Bounded(s) && Enabled(s, step) && Safe(s, step)
    requires r in s.tasks && s.tasks[r].running && InHand(s, r, out) && !(step.Word? && IsWordFor(s, r, out))
    ensures r in Next(lim, s, step).tasks ==> InHand(Next(lim, s, step), r, out)
  {
    if step.Word? {
      WordKept(lim, s, step.seconds, r, out);
      if r in Handle(lim, s, step.seconds).tasks {
        KeptInHand(s, Handle(lim, s, step.seconds), r, out);
      }
    } else if step.Timer? {
      assert TaskOk(lim, s.tasks[r]);
      FireInHand(s, step.i, r, out);
    } else if step.Frame? {
      FrameInHand(s, r, out);
    } else {
      QuietInHand(lim, s, step, r, out);
    }
  }

  // ---------------------------------------------------------------- how a route came to its end

  /** The last word of a route: none yet, one that got a retry, or one that settled it. */
  datatype LastWord = NoWord | Again | Settled

  /** OK, ERROR, and RETRY at the limit settle a route. */
  function Verdict(lim: Limits, s: State, r: nat, out: nat): (w: LastWord)
    requires IsWordFor(s, r, out)
  {
    if s.senders[0].ret == FLB_RETRY && !LimitReached(lim, s.tasks[r], out) then Again else Settled
  }

  function WordOf(lim: Limits, ss: seq<State>, steps: seq<Step>, n: nat, r: nat, out: nat): (w: LastWord)
    requires |ss| == |steps| + 1 && n <= |steps|
    decreases n
  {
    if n == 0 then NoWord
    else if steps[n - 1].Word? && IsWordFor(ss[n - 1], r, out) then Verdict(lim, ss[n - 1], r, out)
    else WordOf(lim, ss, steps, n - 1, r, out)
  }

  /** The last word of the route tells whether it is finished. */
  ghost predicate Tells(s: State, r: nat, out: nat, w: LastWord) {
    if r !in s.tasks then r >= s.nextRef ==> w == NoWord
    else if !s.tasks[r].running then w == NoWord
    else out in s.tasks[r].routes ==> (w == Settled <==> Finished(s, r, out))
  }

  /** A word that settles the route finishes it. */
  lemma {:induction false} SettledIsFinished(lim: Limits, s: State, seconds: nat, r: nat, out: nat)
    requires Inv(lim, s) && FindsSender(s) && s.senders[0].ret <= 2 && IsWordFor(s, r, out)
    requires Verdict(lim, s, r, out) == Settled && r in Handle(lim, s, seconds).tasks && s.tasks[r].running
    ensures Finished(Handle(lim, s, seconds), r, out)
  {
    HandleIs(lim, s, seconds);
    var t, i, ret := s.tasks[r], WordThread(s), s.senders[0].ret;
    assert TaskOk(lim, t);
    assert HasThread(t, out);
    ThreadOrRetry(lim, s, r, out);
    if ret == FLB_ERROR {
      AbandonNew(s, r, i, r, out);
      RemoveOuts(t, i);
    } else {
      ConcludeNew(s, r, i, r, out);
      DroppedFrom(t, out);
      RemoveOuts(DropRetry(t, out), i);
    }
  }

  /** A word that gets a retry leaves the route in hand. */
  lemma {:induction false} AgainIsScheduled(lim: Limits, s: State, seconds: nat, r: nat, out: nat)
    requires FindsSender(s) && IsWordFor(s, r, out) && Verdict(lim, s, r, out) == Again
    ensures r in Handle(lim, s, seconds).tasks && Scheduled(Handle(lim, s, seconds), r, out)
  {
    HandleIs(lim, s, seconds);
    var t, i := s.tasks[r], WordThread(s);
    RescheduleForm(s, r, i, seconds);
    var s', m, p := Handle(lim, s, seconds), MoreRetry(t, out, s.nextRef), NextPtr(t, r, out, s.nextRef);
    CreateSchedules(s.sched, p, seconds);
    var k := RetryIndex(m.retries, out);
    assert s'.tasks[r].retries == m.retries && m.retries[k].out == out;
    assert Asked(s'.sched, S.RetryPtr(r, m.retries[k].id));
  }

  lemma {:induction false} OwnWordTells(lim: Limits, s: State, seconds: nat, r: nat, out: nat)
    requires Inv(lim, s) && Bounded(s) && s.channel != [] && IsWordFor(s, r, out)
    ensures FindsSender(s) && Tells(Handle(lim, s, seconds), r, out, Verdict(lim, s, r, out))
  {
    WordFindsSender(lim, s);
    assert WordOk(s, s.channel[0], s.senders[0]);
    HandleTasks(lim, s, seconds);
    assert TaskOk(lim, s.tasks[r]) && s.tasks[r].running && r < s.nextRef;
    if Verdict(lim, s, r, out) == Again {
      AgainIsScheduled(lim, s, seconds, r, out);
    } else if r in Handle(lim, s, seconds).tasks {
      SettledIsFinished(lim, s, seconds, r, out);
    }
  }

  lemma {:induction false} StartInHand(s: State, r: nat, out: nat)
    requires r in s.tasks && out in s.tasks[r].routes
    ensures InHand(StartTask(s, r), r, out)
  {
    var t := s.tasks[r];
    AddThreadsForm(t.(running := true), t.routes);
    var k :| 0 <= k < |t.routes| && t.routes[k] == out;
    assert StartTask(s, r).tasks[r].threads[|t.threads| + k].out == out;
  }

  /** Tasks that are not there or not started have no words, and get none. */
  lemma {:induction false} EarlyTells(lim: Limits, s: State, step: Step, r: nat, out: nat)
    requires Inv(lim, s) && Bounded(s) && Enabled(s, step) && Safe(s, step) && Tells(s, r, out, NoWord)
    requires r !in s.tasks || !s.tasks[r].running
    ensures !(step.Word? && IsWordFor(s, r, out)) && Tells(Next(lim, s, step), r, out, NoWord)
  {
    if step == Begin(r) {
      if out in s.tasks[r].routes {
        StartInHand(s, r, out);
      }
      AddThreadsForm(s.tasks[r].(running := true), s.tasks[r].routes);
    } else {
      StaysEarly(lim, s, step, r);
    }
    if r in s.tasks {
      assert TaskOk(lim, s.tasks[r]);
    }
  }

  lemma {:induction false} StaysEarly(lim: Limits, s: State, step: Step, r: nat)
    requires Inv(lim, s) && Bounded(s) && Enabled(s, step) && Safe(s, step) && step != Begin(r)
    requires r !in s.tasks || !s.tasks[r].running
    ensures r !in Next(lim, s, step).tasks || !Next(lim, s, step).tasks[r].running
  {
    if step.Word? {
      WordEarly(lim, s, step.seconds, r);
    } else {
      if r in s.tasks {
        assert TaskOk(lim, s.tasks[r]);
      }
      QuietEarly(lim, s, step, r);
    }
  }

  lemma {:induction false} WordEarly(lim: Limits, s: State, seconds: nat, r: nat)
    requires Inv(lim, s) && Bounded(s) && s.channel != [] && (r !in s.tasks || !s.tasks[r].running)
    ensures FindsSender(s)
    ensures r !in Handle(lim, s, seconds).tasks || !Handle(lim, s, seconds).tasks[r].running
  {
    WordFindsSender(lim, s);
    assert WordOk(s, s.channel[0], s.senders[0]);
    HandleTasks(lim, s, seconds);
  }

  lemma {:induction false} QuietEarly(lim: Limits, s: State, step: Step, r: nat)
    requires Enabled(s, step) && Safe(s, step) && !step.Word? && step != Begin(r)
    requires r !in s.tasks || (!s.tasks[r].running && s.tasks[r].retries == [])
    ensures r !in Next(lim, s, step).tasks || !Next(lim, s, step).tasks[r].running
  {
  }

  lemma {:induction false} GoneForGood(lim: Limits, s: State, step: Step, r: nat)
    requires Inv(lim, s) && Bounded(s) && Enabled(s, step) && Safe(s, step) && r !in s.tasks && r < s.nextRef
    ensures r !in Next(lim, s, step).tasks && r < Next(lim, s, step).nextRef
  {
    RefsGrow(lim, s, step);
    if step.Word? {
      WordFindsSender(lim, s);
      assert WordOk(s, s.channel[0], s.senders[0]);
      HandleTasks(lim, s, step.seconds);
    } else {
      QuietGone(lim, s, step, r);
    }
  }

  lemma {:induction false} QuietGone(lim: Limits, s: State, step: Step, r: nat)
    requires Enabled(s, step) && Safe(s, step) && !step.Word? && r !in s.tasks && r < s.nextRef
    ensures r !in Next(lim, s, step).tasks
  {
  }

  lemma {:induction false} RunningTells(lim: Limits, s: State, step: Step, r: nat, out: nat, w: LastWord)
    requires Inv(lim, s) && Bounded(s) && Enabled(s, step) && Safe(s, step) && Tells(s, r, out, w)
    requires r in s.tasks && s.tasks[r].running && !(step.Word? && IsWordFor(s, r, out))
    requires r in Next(lim, s, step).tasks
    ensures Next(lim, s, step).tasks[r].running && Next(lim, s, step).tasks[r].routes == s.tasks[r].routes
    ensures Tells(Next(lim, s, step), r, out, w)
  {
    SameRoutes(lim, s, step, r);
    if Finished(s, r, out) {
      NextFinished(lim, s, step, r, out);
    } else {
      NextInHand(lim, s, step, r, out);
    }
  }

  lemma {:induction false} SameRoutes(lim: Limits, s: State, step: Step, r: nat)
    requires Inv(lim, s) && Bounded(s) && Enabled(s, step) && Safe(s, step)
    requires r in s.tasks && s.tasks[r].running && r in Next(lim, s, step).tasks
    ensures Next(lim, s, step).tasks[r].running && Next(lim, s, step).tasks[r].routes == s.tasks[r].routes
  {
    if step.Word? {
      WordFindsSender(lim, s);
      assert WordOk(s, s.channel[0], s.senders[0]);
      HandleTasks(lim, s, step.seconds);
    } else {
      QuietRoutes(lim, s, step, r);
    }
  }

  lemma {:induction false} NextTells(lim: Limits, s: State, step: Step, r: nat, out: nat, w: LastWord)
    requires Inv(lim, s) && Bounded(s) && Enabled(s, step) && Safe(s, step) && Tells(s, r, out, w)
    ensures Tells(Next(lim, s, step), r, out,
                  if step.Word? && IsWordFor(s, r, out) then Verdict(lim, s, r, out) else w)
  {
    if step.Word? && IsWordFor(s, r, out) {
      OwnWordTells(lim, s, step.seconds, r, out);
    } else if r !in s.tasks && r < s.nextRef {
      GoneForGood(lim, s, step, r);
    } else if r !in s.tasks || !s.tasks[r].running {
      EarlyTells(lim, s, step, r, out);
    } else if r in Next(lim, s, step).tasks {
      RunningTells(lim, s, step, r, out, w);
    } else {
      RefsGrow(lim, s, step);
    }
  }

  lemma {:induction false} TellsAlways(lim: Limits, ss: seq<State>, steps: seq<Step>, n: nat, r: nat, out: nat)
    requires IsRun(lim, ss, steps) && n <= |steps|
    ensures Tells(ss[n], r, out, WordOf(lim, ss, steps, n, r, out))
    decreases n
  {
    if n > 0 {
      TellsAlways(lim, ss, steps, n - 1, r, out);
      RunTells(lim, ss, steps, n - 1, r, out, WordOf(lim, ss, steps, n - 1, r, out));
    }
  }

  lemma {:induction false} RunTells(
      lim: Limits, ss: seq<State>, steps: seq<Step>, n: nat, r: nat, out: nat, w: LastWord)
    requires IsRun(lim, ss, steps) && n < |steps| && Tells(ss[n], r, out, w)
    ensures Tells(ss[n + 1], r, out,
                  if steps[n].Word? && IsWordFor(ss[n], r, out) then Verdict(lim, ss[n], r, out) else w)
  {
    InvAlways(lim, ss, steps, n);
    RunStep(lim, ss, steps, n);
    NextTells(lim, ss[n], steps[n], r, out, w);
  }

  /**
   At every step of every run a route of a started task has a thread, or a scheduled retry, or
   its last word settled it - OK, ERROR, or RETRY at the limit - and never two of these.  So no
   route is lost without a word that ended it.
   */
  lemma {:induction false} RouteStates(lim: Limits, ss: seq<State>, steps: seq<Step>, n: nat, r: nat, out: nat)
    requires IsRun(lim, ss, steps) && n <= |steps| && r in ss[n].tasks
    requires ss[n].tasks[r].running && out in ss[n].tasks[r].routes
    ensures WordOf(lim, ss, steps, n, r, out) == Settled <==>
            !HasThread(ss[n].tasks[r], out) && !Scheduled(ss[n], r, out)
    ensures !(HasThread(ss[n].tasks[r], out) && Scheduled(ss[n], r, out))
  {
    TellsAlways(lim, ss, steps, n, r, out);
    InvAlways(lim, ss, steps, n);
    if HasThread(ss[n].tasks[r], out) {
      ThreadOrRetry(lim, ss[n], r, out);
    }
  }

  /** A finished route stays finished while its task is there. */
  lemma {:induction false} FinishedForGood(
      lim: Limits, ss: seq<State>, steps: seq<Step>, k: nat, n: nat, r: nat, out: nat)
    requires IsRun(lim, ss, steps) && k <= n <= |steps| && Finished(ss[k], r, out)
    ensures r in ss[n].tasks ==> Finished(ss[n], r, out)
    decreases n
  {
    if n > k {
      FinishedForGood(lim, ss, steps, k, n - 1, r, out);
      RunFinished(lim, ss, steps, k, n - 1, r, out);
    }
  }

  lemma {:induction false} RunFinished(lim: Limits, ss: seq<State>, steps: seq<Step>, k: nat, n: nat, r: nat, out: nat)
    requires IsRun(lim, ss, steps) && k <= n < |steps| && r in ss[k].tasks
    requires r in ss[n].tasks ==> Finished(ss[n], r, out)
    ensures r in ss[n + 1].tasks ==> Finished(ss[n + 1], r, out)
  {
    if r !in ss[n].tasks {
      OnceGiven(lim, ss, steps, k, n, r);
    }
    InvAlways(lim, ss, steps, n);
    RunStep(lim, ss, steps, n);
    StepFinished(lim, ss[n], steps[n], ss[n + 1], r, out);
  }

  lemma {:induction false} StepFinished(lim: Limits, s: State, step: Step, s': State, r: nat, out: nat)
    requires Inv(lim, s) && Bounded(s) && Enabled(s, step) && Safe(s, step) && s' == Next(lim, s, step)
    requires if r in s.tasks then Finished(s, r, out) else r < s.nextRef
    ensures r in s'.tasks ==> Finished(s', r, out)
  {
    if r in s.tasks {
      NextFinished(lim, s, step, r, out);
    } else {
      GoneForGood(lim, s, step, r);
    }
  }

  /** An address that has been given out stays given out. */
  lemma {:induction false} OnceGiven(lim: Limits, ss: seq<State>, steps: seq<Step>, k: nat, n: nat, r: nat)
    requires IsRun(lim, ss, steps) && k <= n <= |steps| && r in ss[k].tasks
    ensures r < ss[n].nextRef
    decreases n
  {
    if n == k {
      InvAlways(lim, ss, steps, k);
    } else {
      OnceGiven(lim, ss, steps, k, n - 1, r);
      RunStep(lim, ss, steps, n - 1);
      RefsGrow(lim, ss[n - 1], steps[n - 1]);
    }
  }
}
