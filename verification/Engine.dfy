/**
 The engine as the source runs it: a table of task slots, the tasks, the event channel and
 the scheduler, updated in place.  Every method does to the state what the step of the same
 name does to the value.
 */
module Engine {
  import opened Bits
  import opened TaskWord
  import opened TaskModel
  import opened TaskInv
  import opened TaskSteps
  import opened TaskRuns
  import opened Wrappers
  import S = Scheduler

  lemma SettleAnyway(s: State, task: nat, u: Task, v: Task)
    requires v.slot < |s.slots|
    ensures Settle(s.(tasks := s.tasks[task := u]), task, v) == Settle(s, task, v)
  {
    assert s.tasks[task := u] - {task} == s.tasks - {task};
    assert s.tasks[task := u][task := v] == s.tasks[task := v];
  }

  /** The value `Conclude` reached by dropping the retry first. */
  lemma ConcludeByParts(s: State, task: nat, i: nat)
    requires task in s.tasks && i < |s.tasks[task].threads| && s.tasks[task].slot < |s.slots|
    ensures var t := s.tasks[task];
            var out := t.threads[i].out;
            var u := DropRetry(t, out);
            u.threads == t.threads && u.slot == t.slot &&
            Conclude(s, task, i) ==
            Settle(s.(tasks := s.tasks[task := u], sched := DropRequest(s.sched, task, t, out)), task,
                   RemoveThread(u, i))
  {
    var t := s.tasks[task];
    var out := t.threads[i].out;
    var u := DropRetry(t, out);
    SettleAnyway(s.(sched := DropRequest(s.sched, task, t, out)), task, u, RemoveThread(u, i));
  }

  /** The value `Reschedule` reached by counting the retry first. */
  lemma RescheduleByParts(s: State, task: nat, i: nat, seconds: nat)
    requires task in s.tasks && i < |s.tasks[task].threads|
    ensures var t := s.tasks[task];
            var out := t.threads[i].out;
            var u := MoreRetry(t, out, s.nextRef);
            u.threads == t.threads && u.slot == t.slot &&
            Reschedule(s, task, i, seconds) ==
            s.(tasks := s.tasks[task := u][task := RemoveThread(u, i)], nextRef := s.nextRef + 1,
               sched := S.Create(s.sched, S.RetryPtr(task, u.retries[RetryIndex(u.retries, out)].id), seconds))
  {
    var u := MoreRetry(s.tasks[task], s.tasks[task].threads[i].out, s.nextRef);
    assert s.tasks[task := u][task := RemoveThread(u, i)] == s.tasks[task := RemoveThread(u, i)];
  }

  class EngineCtx {
    const slots: array<Option<nat>>
    var tasks: map<nat, Task>
    var channel: seq<nat>
    ghost var senders: seq<Sender>
    const sched: S.SchedulerCtx
    var nextRef: nat

    ghost function View(): (s: State)
      reads this, slots, sched
    {
      State(slots[..], tasks, channel, senders, sched.View(), nextRef)
    }

    constructor (now: int)
      ensures View() == Init(now) && fresh(slots) && fresh(sched)
    {
      slots := new Option<nat>[SLOTS](_ => None);
      tasks, channel, senders, nextRef := map[], [], [], 0;
      sched := new S.SchedulerCtx(now);
      new;
      assert slots[..] == Init(now).slots;
    }

    // -------------------------------------------------------------- searches

    method MapGetTaskId() returns (id: nat)
      ensures id == FreeSlot(slots[..])
    {
      id := 0;
      while id < slots.Length
        invariant 0 <= id <= slots.Length && FreeSlot(slots[..]) == id + FreeSlot(slots[id..])
      {
        assert slots[id..][0] == slots[id] && slots[id..][1..] == slots[id + 1..];
        if slots[id].None? {
          return;
        }
        id := id + 1;
      }
      assert slots[id..] == [];
    }

    method ThreadGet(ths: seq<Thread>, id: nat) returns (i: nat)
      ensures i == ThreadIndex(ths, id)
    {
      i := 0;
      while i < |ths|
        invariant i <= |ths| && ThreadIndex(ths, id) == i + ThreadIndex(ths[i..], id)
      {
        assert ths[i..][0] == ths[i] && ths[i..][1..] == ths[i + 1..];
        if ths[i].id == id {
          return;
        }
        i := i + 1;
      }
      assert ths[i..] == [];
    }

    method RetryGet(rs: seq<Retry>, out: nat) returns (k: nat)
      ensures k == RetryIndex(rs, out)
    {
      k := 0;
      while k < |rs|
        invariant k <= |rs| && RetryIndex(rs, out) == k + RetryIndex(rs[k..], out)
      {
        assert rs[k..][0] == rs[k] && rs[k..][1..] == rs[k + 1..];
        if rs[k].out == out {
          return;
        }
        k := k + 1;
      }
      assert rs[k..] == [];
    }

    // -------------------------------------------------------------- tasks

    /** `flb_task_create` (not `direct`) and `flb_task_create_direct`, up to the links. */
    method TaskCreate(routes: seq<nat>, direct: bool) returns (task: Option<nat>)
      modifies this`tasks, this`nextRef, slots
      ensures View() == if direct then Create(old(View()), routes) else CreateRouted(old(View()), routes)
      ensures task.Some? ==> task.value == old(nextRef) && task.value in tasks
    {
      if !direct && routes == [] {
        return None;
      }
      var id := MapGetTaskId();
      if id == slots.Length {
        return None;
      }
      slots[id] := Some(nextRef);
      tasks := tasks[nextRef := Task(id, false, 0, 0, [], routes, [], [])];
      task := Some(nextRef);
      nextRef := nextRef + 1;
    }

    method AddThread(task: nat, out: nat)
      requires task in tasks
      modifies this`tasks
      ensures tasks == old(tasks)[task := TaskModel.AddThread(old(tasks)[task], out)]
    {
      var t := tasks[task];
      var th := Thread(t.nThreads, out, false);
      t := t.(started := t.started + [out]);
      t := t.(nThreads := t.nThreads + 1);
      t := t.(users := t.users + 1);
      t := t.(threads := t.threads + [th]);
      tasks := tasks[task := t];
    }

    /** The body of `tasks_start` for a task that is new. */
    method TaskStart(task: nat)
      requires task in tasks
      modifies this`tasks
      ensures View() == StartTask(old(View()), task)
    {
      var t := tasks[task];
      tasks := tasks[task := t.(running := true)];
      var i := 0;
      while i < |t.routes|
        invariant i <= |t.routes| && task in tasks && tasks == old(tasks)[task := tasks[task]]
        invariant AddThreads(tasks[task], t.routes[i..]) == AddThreads(t.(running := true), t.routes)
      {
        assert t.routes[i..][0] == t.routes[i] && t.routes[i..][1..] == t.routes[i + 1..];
        AddThread(task, t.routes[i]);
        i := i + 1;
      }
      assert t.routes[i..] == [];
    }

    /** `flb_output_return`, called by thread number `i` of the task. */
    method OutputReturn(task: nat, i: nat, ret: nat)
      requires task in tasks && i < |tasks[task].threads|
      modifies this`tasks, this`channel, this`senders
      ensures View() == Return(old(View()), task, i, ret)
    {
      var t := tasks[task];
      var th := t.threads[i];
      var word := TaskSet(ret, t.slot, th.id);
      var val := BitOr(ENGINE_TASK * 0x1_0000_0000, word);
      channel := channel + [val];
      senders := senders + [Sender(task, th.id, ret)];
      tasks := tasks[task := t.(threads := t.threads[i := th.(returned := true)])];
    }

    /** `flb_task_retry_destroy` of retry number `k`. */
    method RetryDestroy(task: nat, k: nat)
      requires task in tasks && k < |tasks[task].retries|
      modifies this`tasks, sched
      ensures sched.View() == S.Invalidate(old(sched.View()), S.RetryPtr(task, old(tasks)[task].retries[k].id))
      ensures var t := old(tasks)[task];
              tasks == old(tasks)[task := t.(retries := t.retries[..k] + t.retries[k + 1..])]
    {
      var t := tasks[task];
      var _ := sched.RequestInvalidate(S.RetryPtr(task, t.retries[k].id));
      tasks := tasks[task := t.(retries := t.retries[..k] + t.retries[k + 1..])];
    }

    /** `flb_task_retry_clean`. */
    method RetryClean(task: nat, out: nat)
      requires task in tasks
      modifies this`tasks, sched
      ensures tasks == old(tasks)[task := DropRetry(old(tasks)[task], out)]
      ensures sched.View() == DropRequest(old(sched.View()), task, old(tasks)[task], out)
    {
      var k := RetryGet(tasks[task].retries, out);
      if k < |tasks[task].retries| {
        RetryDestroy(task, k);
      }
    }

    /** `flb_task_retry_create`: the address of the retry, or None when the limit is reached. */
    method RetryCreate(lim: Limits, task: nat, out: nat) returns (id: Option<nat>)
      requires task in tasks
      modifies this`tasks, this`nextRef, sched
      ensures id.None? <==> LimitReached(lim, old(tasks)[task], out)
      ensures id.None? ==>
                && nextRef == old(nextRef) && tasks == old(tasks)[task := DropRetry(old(tasks)[task], out)]
                && sched.View() == DropRequest(old(sched.View()), task, old(tasks)[task], out)
      ensures id.Some? ==>
                && nextRef == old(nextRef) + 1 && sched.View() == old(sched.View())
                && var u := MoreRetry(old(tasks)[task], out, old(nextRef));
                tasks == old(tasks)[task := u] && id.value == u.retries[RetryIndex(u.retries, out)].id
    {
      var t := tasks[task];
      var k := RetryGet(t.retries, out);
      if k < |t.retries| {
        var q := t.retries[k];
        if q.attempts > Limit(lim, out) && Limit(lim, out) >= 0 {
          RetryDestroy(task, k);
          return None;
        }
        t := t.(retries := t.retries[k := q.(attempts := q.attempts + 1)]);
        FirstRetry(t.retries, out, k);
        id := Some(q.id);
      } else {
        t := t.(retries := t.retries + [Retry(nextRef, out, 1)]);
        FirstRetry(t.retries, out, k);
        id := Some(nextRef);
      }
      assert t == MoreRetry(old(tasks)[task], out, old(nextRef));
      tasks := tasks[task := t];
      nextRef := nextRef + 1;
    }

    /** `flb_output_thread_destroy_id`. */
    method ThreadDestroy(task: nat, id: nat)
      requires task in tasks && ThreadIndex(tasks[task].threads, id) < |tasks[task].threads|
      modifies this`tasks
      ensures var t := old(tasks)[task];
              tasks == old(tasks)[task := RemoveThread(t, ThreadIndex(t.threads, id))]
    {
      var t := tasks[task];
      var i := ThreadGet(t.threads, id);
      t := t.(threads := t.threads[..i] + t.threads[i + 1..]);
      t := t.(users := t.users - 1);
      tasks := tasks[task := t];
    }

    /** `flb_task_destroy`. */
    method TaskDestroy(task: nat)
      requires task in tasks && tasks[task].slot < slots.Length
      modifies this`tasks, slots, sched
      ensures View() == DestroyTask(old(View()), task, old(tasks)[task])
    {
      var t := tasks[task];
      slots[t.slot] := None;
      var i := 0;
      while i < |t.retries|
        invariant i <= |t.retries| && tasks == old(tasks) && slots[..] == old(slots[..])[t.slot := None]
        invariant InvalidateAll(sched.View(), task, t.retries[i..]) == InvalidateAll(old(sched.View()), task, t.retries)
      {
        assert t.retries[i..][0] == t.retries[i] && t.retries[i..][1..] == t.retries[i + 1..];
        var _ := sched.RequestInvalidate(S.RetryPtr(task, t.retries[i].id));
        i := i + 1;
      }
      assert t.retries[i..] == [];
      tasks := tasks - {task};
    }

    /** The thread goes, and the task with it when it has no users left. */
    method Finish(task: nat, id: nat)
      requires task in tasks && tasks[task].slot < slots.Length
      requires ThreadIndex(tasks[task].threads, id) < |tasks[task].threads|
      modifies this`tasks, slots, sched
      ensures var t := old(tasks)[task];
              View() == Settle(old(View()), task, RemoveThread(t, ThreadIndex(t.threads, id)))
    {
      ThreadDestroy(task, id);
      if tasks[task].users == 0 {
        TaskDestroy(task);
        assert tasks == old(tasks) - {task};
      }
    }

    /** The thread numbered by `id` in the task. */
    predicate Linked(task: nat, id: nat)
      reads this, slots
    {
      && task in tasks && tasks[task].slot < slots.Length
      && ThreadIndex(tasks[task].threads, id) < |tasks[task].threads|
    }

    /** The thread reported OK. */
    method OnOk(task: nat, id: nat, out: nat)
      requires Linked(task, id) && out == tasks[task].threads[ThreadIndex(tasks[task].threads, id)].out
      modifies this`tasks, slots, sched
      ensures View() == Conclude(old(View()), task, ThreadIndex(old(tasks)[task].threads, id))
    {
      ConcludeByParts(View(), task, ThreadIndex(tasks[task].threads, id));
      RetryClean(task, out);
      Finish(task, id);
    }

    /** The thread asked for a retry. */
    method OnRetry(lim: Limits, task: nat, id: nat, out: nat, seconds: nat)
      requires Linked(task, id) && out == tasks[task].threads[ThreadIndex(tasks[task].threads, id)].out
      modifies this`tasks, this`nextRef, slots, sched
      ensures var i := ThreadIndex(old(tasks)[task].threads, id);
              View() == if LimitReached(lim, old(tasks)[task], out) then Conclude(old(View()), task, i)
                        else Reschedule(old(View()), task, i, seconds)
    {
      ConcludeByParts(View(), task, ThreadIndex(tasks[task].threads, id));
      RescheduleByParts(View(), task, ThreadIndex(tasks[task].threads, id), seconds);
      var retry := RetryCreate(lim, task, out);
      if retry.None? {
        Finish(task, id);
      } else {
        Later(task, id, retry.value, seconds);
      }
    }

    /** The old thread goes and the scheduler takes over the retry. */
    method Later(task: nat, id: nat, retry: nat, seconds: nat)
      requires Linked(task, id)
      modifies this`tasks, sched
      ensures var t := old(tasks)[task];
              tasks == old(tasks)[task := RemoveThread(t, ThreadIndex(t.threads, id))]
      ensures sched.View() == S.Create(old(sched.View()), S.RetryPtr(task, retry), seconds)
    {
      ThreadDestroy(task, id);
      sched.RequestCreate(S.RetryPtr(task, retry), seconds);
    }

    /** The task branch of `flb_engine_manager`, with the wait the backoff would choose. */
    method Manager(lim: Limits, seconds: nat)
      requires Decodes(View())
      modifies this, slots, sched
      ensures View() == Handle(lim, old(View()), seconds)
    {
      var val := channel[0];
      channel := channel[1..];
      senders := senders[1..];
      var key := val % 0x1_0000_0000;
      var ret, slot, id := TaskRet(key), TaskId(key), TaskTh(key);
      var task := slots[slot].value;
      var i := ThreadGet(tasks[task].threads, id);
      var out := tasks[task].threads[i].out;
      if ret == FLB_OK {
        OnOk(task, id, out);
      } else if ret == FLB_RETRY {
        OnRetry(lim, task, id, out, seconds);
      } else if ret == FLB_ERROR {
        Finish(task, id);
      }
    }

    /** The timer of armed request number `i`: `flb_engine_dispatch_retry`, then the request goes. */
    method DispatchRetry(i: nat)
      requires i < |sched.requests| && Live(View(), sched.requests[i].data)
      modifies this`tasks, sched
      ensures View() == Fire(old(View()), i)
    {
      var p := sched.requests[i].data;
      var k := RetryOf(tasks[p.task].retries, p.id);
      AddThread(p.task, tasks[p.task].retries[k].out);
      sched.RequestDestroy(i);
    }

    /** A word arrives: under the invariant it finds its sender, so it can always be handled. */
    method HandleEvent(lim: Limits, seconds: nat)
      requires Inv(lim, View()) && Bounded(View()) && channel != []
      modifies this, slots, sched
      ensures FindsSender(old(View())) && View() == Handle(lim, old(View()), seconds) && Inv(lim, View())
    {
      HandleKeeps(lim, View(), seconds);
      Manager(lim, seconds);
    }

    /** A timer goes off: where nothing dangles its retry is there. */
    method HandleTimer(lim: Limits, i: nat)
      requires Inv(lim, View()) && NoDangling(View()) && i < |sched.requests|
      modifies this`tasks, sched
      ensures Live(old(View()), old(sched.requests)[i].data) && View() == Fire(old(View()), i) && Inv(lim, View())
    {
      assert Queued(View().sched, sched.requests[i]);
      FireTask(lim, View(), i);
      FireKeeps(lim, View(), i, Fire(View(), i));
      DispatchRetry(i);
    }

    /** Follows the pointer a request holds. */
    method RetryOf(rs: seq<Retry>, id: nat) returns (k: nat)
      ensures k == RetryAt(rs, id)
    {
      k := 0;
      while k < |rs|
        invariant k <= |rs| && RetryAt(rs, id) == k + RetryAt(rs[k..], id)
      {
        assert rs[k..][0] == rs[k] && rs[k..][1..] == rs[k + 1..];
        if rs[k].id == id {
          return;
        }
        k := k + 1;
      }
      assert rs[k..] == [];
    }
  }
}
