/**
 Tasks, their threads, retries and slots (src/flb_task.c, src/flb_engine.c,
 src/flb_engine_dispatch.c, include/fluent-bit/flb_output.h), as values and as the steps the
 engine takes on them.  An address is a number that is never given out twice.
 */
module TaskModel {
  import opened TaskWord
  import opened Wrappers
  import S = Scheduler

  // the return values of an output plugin
  const FLB_ERROR := 0
  const FLB_OK := 1
  const FLB_RETRY := 2

  // ---------------------------------------------------------------- data

  /** An output thread; `returned` once its plugin has reported a result. */
  datatype Thread = Thread(id: nat, out: nat, returned: bool)

  datatype Retry = Retry(id: nat, out: nat, attempts: nat)

  /** A task; `started` logs the output of every thread it ever had, by thread id. */
  datatype Task = Task(
    slot: nat,
    running: bool,
    nThreads: nat,
    users: int,
    threads: seq<Thread>,
    routes: seq<nat>,
    retries: seq<Retry>,
    started: seq<nat>)

  /** Who wrote a word that is still in the channel, and what. */
  datatype Sender = Sender(task: nat, thread: nat, ret: nat)

  datatype State = State(
    slots: seq<Option<nat>>,
    tasks: map<nat, Task>,
    channel: seq<nat>,
    senders: seq<Sender>,
    sched: S.Sched,
    nextRef: nat)

  /** The retry limit of each output; negative means no limit. */
  type Limits = map<nat, int>

  function Limit(lim: Limits, out: nat): (l: int) { if out in lim then lim[out] else 1 }

  function Init(now: int): (s: State) {
    State(seq(SLOTS, _ => None), map[], [], [], S.Start(now), 0)
  }

  // ---------------------------------------------------------------- threads of a task

  /** `flb_task_add_thread`. */
  function AddThread(t: Task, out: nat): (r: Task) {
    t.(nThreads := t.nThreads + 1,
       users := t.users + 1,
       threads := t.threads + [Thread(t.nThreads, out, false)],
       started := t.started + [out])
  }

  function AddThreads(t: Task, outs: seq<nat>): (r: Task)
    decreases |outs|
  {
    if outs == [] then t else AddThreads(AddThread(t, outs[0]), outs[1..])
  }

  /** `flb_output_thread_get`: the position of the thread, or the length of the list. */
  function ThreadIndex(ths: seq<Thread>, id: nat): (i: nat)
    ensures i <= |ths|
    ensures i < |ths| ==> ths[i].id == id
    ensures forall j :: 0 <= j < i ==> ths[j].id != id
  {
    if ths == [] || ths[0].id == id then 0 else 1 + ThreadIndex(ths[1..], id)
  }

  /** `flb_output_thread_destroy_id`. */
  function RemoveThread(t: Task, i: nat): (r: Task)
    requires i < |t.threads|
  {
    t.(users := t.users - 1, threads := t.threads[..i] + t.threads[i + 1..])
  }

  // ---------------------------------------------------------------- retries of a task

  function RetryIndex(rs: seq<Retry>, out: nat): (i: nat)
    ensures i <= |rs|
    ensures i < |rs| ==> rs[i].out == out
    ensures forall j :: 0 <= j < i ==> rs[j].out != out
  {
    if rs == [] || rs[0].out == out then 0 else 1 + RetryIndex(rs[1..], out)
  }

  predicate HasRetry(t: Task, out: nat) { RetryIndex(t.retries, out) < |t.retries| }

  predicate HasThread(t: Task, out: nat) { exists i :: 0 <= i < |t.threads| && t.threads[i].out == out }

  /** `flb_task_retry_destroy`, on the task. */
  function DropRetry(t: Task, out: nat): (r: Task) {
    var k := RetryIndex(t.retries, out);
    if k < |t.retries| then t.(retries := t.retries[..k] + t.retries[k + 1..]) else t
  }

  /** ... and on the scheduler. */
  function DropRequest(sc: S.Sched, task: nat, t: Task, out: nat): (r: S.Sched) {
    var k := RetryIndex(t.retries, out);
    if k < |t.retries| then S.Invalidate(sc, S.RetryPtr(task, t.retries[k].id)) else sc
  }

  predicate LimitReached(lim: Limits, t: Task, out: nat) {
    var k := RetryIndex(t.retries, out);
    k < |t.retries| && t.retries[k].attempts > Limit(lim, out) && Limit(lim, out) >= 0
  }

  /** `flb_task_retry_create` below the limit: one more attempt, or a first one at address `ref`. */
  function MoreRetry(t: Task, out: nat, ref: nat): (r: Task)
    ensures HasRetry(r, out)
  {
    var k := RetryIndex(t.retries, out);
    if k < |t.retries| then
      var r := t.(retries := t.retries[k := t.retries[k].(attempts := t.retries[k].attempts + 1)]);
      FirstRetry(r.retries, out, k);
      r
    else
      var r := t.(retries := t.retries + [Retry(ref, out, 1)]);
      FirstRetry(r.retries, out, k);
      r
  }

  lemma {:induction false} FirstRetry(rs: seq<Retry>, out: nat, k: nat)
    requires k < |rs| && rs[k].out == out && forall j :: 0 <= j < k ==> rs[j].out != out
    ensures RetryIndex(rs, out) == k
  {
  }

  function Attempts(t: Task, out: nat): (n: nat)
    requires HasRetry(t, out)
  {
    t.retries[RetryIndex(t.retries, out)].attempts
  }

  // ---------------------------------------------------------------- slots

  /** `map_get_task_id`: the lowest free slot, or the number of slots. */
  function FreeSlot(slots: seq<Option<nat>>): (i: nat)
    ensures i <= |slots|
    ensures i < |slots| ==> slots[i].None?
    ensures forall j :: 0 <= j < i ==> slots[j].Some?
  {
    if slots == [] || slots[0].None? then 0 else 1 + FreeSlot(slots[1..])
  }

  // ---------------------------------------------------------------- steps

  /** A new task in the lowest free slot; nothing happens if there is none. */
  function Create(s: State, routes: seq<nat>): (r: State)
  {
    var i := FreeSlot(s.slots);
    if i == |s.slots| then s
    else
      s.(slots := s.slots[i := Some(s.nextRef)],
         tasks := s.tasks[s.nextRef := Task(i, false, 0, 0, [], routes, [], [])],
         nextRef := s.nextRef + 1)
  }

  /** `flb_task_create`: a task without routes is dropped at once. */
  function CreateRouted(s: State, routes: seq<nat>): (r: State) {
    if routes == [] then s else Create(s, routes)
  }

  /** `tasks_start` for one new task: a thread for every route. */
  function StartTask(s: State, task: nat): (r: State)
    requires task in s.tasks
  {
    var t := s.tasks[task];
    s.(tasks := s.tasks[task := AddThreads(t.(running := true), t.routes)])
  }

  /** `flb_output_return`: thread number `i` of the task reports `ret`. */
  function Return(s: State, task: nat, i: nat, ret: nat): (r: State)
    requires task in s.tasks && i < |s.tasks[task].threads|
  {
    var t := s.tasks[task];
    var th := t.threads[i];
    s.(tasks := s.tasks[task := t.(threads := t.threads[i := th.(returned := true)])],
       channel := s.channel + [Encode(Signal(ret, t.slot, th.id))],
       senders := s.senders + [Sender(task, th.id, ret)])
  }

  function InvalidateAll(sc: S.Sched, task: nat, rs: seq<Retry>): (r: S.Sched)
    decreases |rs|
  {
    if rs == [] then sc else InvalidateAll(S.Invalidate(sc, S.RetryPtr(task, rs[0].id)), task, rs[1..])
  }

  /** `flb_task_destroy`. */
  function DestroyTask(s: State, task: nat, t: Task): (r: State)
    requires t.slot < |s.slots|
  {
    s.(slots := s.slots[t.slot := None],
       tasks := s.tasks - {task},
       sched := InvalidateAll(s.sched, task, t.retries))
  }

  /** The thread is gone; a task without users is destroyed, whatever it still waits for. */
  function Settle(s: State, task: nat, t: Task): (r: State)
    requires t.slot < |s.slots|
  {
    if t.users == 0 then DestroyTask(s, task, t) else s.(tasks := s.tasks[task := t])
  }

  /** After OK, and when the retry limit is reached: the retry goes, then the thread. */
  function Conclude(s: State, task: nat, i: nat): (r: State)
    requires task in s.tasks && i < |s.tasks[task].threads| && s.tasks[task].slot < |s.slots|
  {
    var t := s.tasks[task];
    var out := t.threads[i].out;
    Settle(s.(sched := DropRequest(s.sched, task, t, out)), task, RemoveThread(DropRetry(t, out), i))
  }

  /** After ERROR the thread goes and the retry, if any, stays with the task. */
  function Abandon(s: State, task: nat, i: nat): (r: State)
    requires task in s.tasks && i < |s.tasks[task].threads| && s.tasks[task].slot < |s.slots|
  {
    Settle(s, task, RemoveThread(s.tasks[task], i))
  }

  /** After RETRY below the limit: the retry is scheduled in `seconds`. */
  function Reschedule(s: State, task: nat, i: nat, seconds: nat): (r: State)
    requires task in s.tasks && i < |s.tasks[task].threads|
  {
    var t := s.tasks[task];
    var out := t.threads[i].out;
    var u := MoreRetry(t, out, s.nextRef);
    var ptr := S.RetryPtr(task, u.retries[RetryIndex(u.retries, out)].id);
    s.(tasks := s.tasks[task := RemoveThread(u, i)],
       sched := S.Create(s.sched, ptr, seconds),
       nextRef := s.nextRef + 1)
  }

  /** The task branch of `flb_engine_manager` for thread number `i` of the task. */
  function Handled(lim: Limits, s: State, task: nat, i: nat, ret: nat, seconds: nat): (r: State)
    requires task in s.tasks && i < |s.tasks[task].threads| && s.tasks[task].slot < |s.slots|
  {
    if ret == FLB_OK then Conclude(s, task, i)
    else if ret == FLB_RETRY then
      if LimitReached(lim, s.tasks[task], s.tasks[task].threads[i].out) then Conclude(s, task, i)
      else Reschedule(s, task, i, seconds)
    else if ret == FLB_ERROR then Abandon(s, task, i)
    else s
  }

  /** The word decodes to a slot that holds a task, and to a thread of that task. */
  predicate Decodes(s: State) {
    && s.channel != [] && s.senders != []
    && var g := Decode(s.channel[0]);
    && g.slot < |s.slots| && s.slots[g.slot].Some? && s.slots[g.slot].value in s.tasks
    && var t := s.tasks[s.slots[g.slot].value];
    ThreadIndex(t.threads, g.thread) < |t.threads| && t.slot < |s.slots|
  }

  /** The engine reads one word and handles it. */
  function Handle(lim: Limits, s: State, seconds: nat): (r: State)
    requires Decodes(s)
  {
    var g := Decode(s.channel[0]);
    var task := s.slots[g.slot].value;
    Handled(lim, s.(channel := s.channel[1..], senders := s.senders[1..]), task,
            ThreadIndex(s.tasks[task].threads, g.thread), g.ret, seconds)
  }

  /** The retry that a request refers to is still there. */
  predicate Live(s: State, p: S.RetryPtr) {
    p.task in s.tasks && exists k :: 0 <= k < |s.tasks[p.task].retries| && s.tasks[p.task].retries[k].id == p.id
  }

  function RetryAt(rs: seq<Retry>, id: nat): (k: nat)
    ensures k <= |rs|
    ensures k < |rs| ==> rs[k].id == id
    ensures forall j :: 0 <= j < k ==> rs[j].id != id
  {
    if rs == [] || rs[0].id == id then 0 else 1 + RetryAt(rs[1..], id)
  }

  /** A timer goes off: a thread for the retry, and the request is destroyed. */
  function Fire(s: State, i: nat): (r: State)
    requires i < |s.sched.requests| && Live(s, s.sched.requests[i].data)
  {
    var p := s.sched.requests[i].data;
    var t := s.tasks[p.task];
    var k := RetryAt(t.retries, p.id);
    s.(tasks := s.tasks[p.task := AddThread(t, t.retries[k].out)], sched := S.Destroy(s.sched, i))
  }
}
