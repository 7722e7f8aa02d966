/**
 Every step of the engine keeps the invariant.
 */
module TaskSteps {
  import opened TaskWord
  import opened TaskModel
  import opened TaskInv
  import S = Scheduler

  // ---------------------------------------------------------------- changing one task

  predicate Updated(s: State, s': State, r: nat, u: Task) {
    s'.slots == s.slots && r in s.tasks && s'.tasks == s.tasks[r := u] && u.slot == s.tasks[r].slot
  }

  lemma SlotsUpdated(s: State, s': State, r: nat, u: Task)
    requires SlotsOk(s) && Updated(s, s', r, u)
    ensures SlotsOk(s')
  {
  }

  /** The thread with this id is linked and has returned. */
  predicate Finds(u: Task, id: nat) {
    var j := ThreadIndex(u.threads, id);
    j < |u.threads| && u.threads[j].returned
  }

  lemma ChannelUpdated(s: State, s': State, r: nat, u: Task, n: nat)
    requires ChannelOk(s) && Updated(s, s', r, u) && n <= |s.channel|
    requires s'.channel == s.channel[n..] && s'.senders == s.senders[n..]
    requires forall i :: n <= i < |s.senders| && s.senders[i].task == r ==> Finds(u, s.senders[i].thread)
    ensures ChannelOk(s')
  {
    forall i | 0 <= i < |s'.channel| ensures WordOk(s', s'.channel[i], s'.senders[i]) {
      assert WordOk(s, s.channel[n + i], s.senders[n + i]);
    }
  }

  lemma RequestsUpdated(s: State, s': State, r: nat, u: Task)
    requires RequestsOk(s) && Updated(s, s', r, u) && s'.sched == s.sched && s.nextRef <= s'.nextRef
    requires forall q :: Queued(s.sched, q) && q.data.task == r ==> Pending(u, q.data.id)
    ensures RequestsOk(s')
  {
    forall q | Queued(s'.sched, q) ensures RequestOk(s', q) {
      assert RequestOk(s, q);
    }
  }

  lemma {:induction false} SameIndex(a: seq<Thread>, b: seq<Thread>, id: nat)
    requires |a| == |b| && forall i :: 0 <= i < |a| ==> a[i].id == b[i].id
    ensures ThreadIndex(a, id) == ThreadIndex(b, id)
  {
  }

  lemma TasksUpdated(lim: Limits, s: State, s': State, r: nat, u: Task)
    requires TasksOk(lim, s) && RefsOk(s) && RetryRefsOk(s) && Updated(s, s', r, u) && s.nextRef <= s'.nextRef
    requires TaskOk(lim, u) && forall k :: 0 <= k < |u.retries| ==> u.retries[k].id < s'.nextRef
    ensures TasksOk(lim, s') && RefsOk(s') && RetryRefsOk(s')
  {
    forall x, k | x in s'.tasks && 0 <= k < |s'.tasks[x].retries| ensures s'.tasks[x].retries[k].id < s'.nextRef {
      if x != r {
        assert s.tasks[x].retries[k].id < s.nextRef;
      }
    }
  }

  lemma NoWordsFor(s: State, r: nat)
    requires ChannelOk(s) && r in s.tasks && s.tasks[r].threads == []
    ensures forall i :: 0 <= i < |s.senders| ==> s.senders[i].task != r
  {
    forall i | 0 <= i < |s.senders| ensures s.senders[i].task != r {
      assert WordOk(s, s.channel[i], s.senders[i]);
    }
  }

  lemma NoRequestsFor(s: State, r: nat)
    requires RequestsOk(s) && r in s.tasks && s.tasks[r].retries == []
    ensures forall q :: Queued(s.sched, q) ==> q.data.task != r
  {
    forall q | Queued(s.sched, q) ensures q.data.task != r {
      assert RequestOk(s, q);
    }
  }

  // ---------------------------------------------------------------- create, start, return

  predicate DistinctRoutes(routes: seq<nat>) { forall i, j :: 0 <= i < j < |routes| ==> routes[i] != routes[j] }

  lemma CreateSlots(s: State, routes: seq<nat>)
    requires SlotsOk(s) && RefsOk(s)
    ensures SlotsOk(Create(s, routes)) && RefsOk(Create(s, routes))
  {
  }

  lemma CreateTasks(lim: Limits, s: State, routes: seq<nat>)
    requires SlotsOk(s) && TasksOk(lim, s) && RetryRefsOk(s) && DistinctRoutes(routes)
    ensures TasksOk(lim, Create(s, routes)) && RetryRefsOk(Create(s, routes))
  {
    if FreeSlot(s.slots) < SLOTS {
      NewTaskOk(lim, FreeSlot(s.slots), routes);
    }
  }

  lemma CreateQueues(s: State, routes: seq<nat>)
    requires ChannelOk(s) && RequestsOk(s) && RefsOk(s)
    ensures ChannelOk(Create(s, routes)) && RequestsOk(Create(s, routes))
  {
    var s' := Create(s, routes);
    assert s.nextRef !in s.tasks;
    forall k | 0 <= k < |s'.channel| ensures WordOk(s', s'.channel[k], s'.senders[k]) {
      assert WordOk(s, s.channel[k], s.senders[k]);
    }
    forall q | Queued(s'.sched, q) ensures RequestOk(s', q) {
      assert RequestOk(s, q);
    }
  }

  lemma {:induction false} CreateKeeps(lim: Limits, s: State, routes: seq<nat>)
    requires Inv(lim, s) && DistinctRoutes(routes)
    ensures Inv(lim, Create(s, routes))
  {
    CreateSlots(s, routes);
    CreateTasks(lim, s, routes);
    CreateQueues(s, routes);
  }

  lemma {:induction false} StartKeeps(lim: Limits, s: State, r: nat)
    requires Inv(lim, s) && r in s.tasks && !s.tasks[r].running
    ensures Inv(lim, StartTask(s, r))
    ensures Started(StartTask(s, r).tasks[r])
  {
    var t, s' := s.tasks[r], StartTask(s, r);
    var u := s'.tasks[r];
    assert TaskOk(lim, t);
    StartForm(t);
    StartedOk(lim, u);
    NoWordsFor(s, r);
    NoRequestsFor(s, r);
    SlotsUpdated(s, s', r, u);
    TasksUpdated(lim, s, s', r, u);
    ChannelUpdated(s, s', r, u, 0);
    RequestsUpdated(s, s', r, u);
  }

  lemma {:induction false} UniqueIndex(t: Task, i: nat)
    requires ThreadsOk(t) && i < |t.threads|
    ensures ThreadIndex(t.threads, t.threads[i].id) == i
  {
  }

  lemma {:induction false} ReturnKeeps(lim: Limits, s: State, r: nat, i: nat, ret: nat)
    requires Inv(lim, s) && r in s.tasks && i < |s.tasks[r].threads|
    requires !s.tasks[r].threads[i].returned && ret <= 2
    ensures Inv(lim, Return(s, r, i, ret))
  {
    var t, s' := s.tasks[r], Return(s, r, i, ret);
    var u := s'.tasks[r];
    assert TaskOk(lim, t);
    ReturnOk(lim, t, i);
    SlotsUpdated(s, s', r, u);
    TasksUpdated(lim, s, s', r, u);
    ReturnChannel(s, r, i, ret);
    ReturnRequests(s, r, i, ret);
  }

  lemma {:induction false} ReturnRequests(s: State, r: nat, i: nat, ret: nat)
    requires RequestsOk(s) && r in s.tasks && i < |s.tasks[r].threads|
    ensures RequestsOk(Return(s, r, i, ret))
  {
    var t, s' := s.tasks[r], Return(s, r, i, ret);
    var u := s'.tasks[r];
    forall q | Queued(s.sched, q) && q.data.task == r ensures Pending(u, q.data.id) {
      assert RequestOk(s, q);
      PendingSame(t, u, q.data.id);
    }
    RequestsUpdated(s, s', r, u);
  }

  lemma PendingSame(t: Task, u: Task, id: nat)
    requires Pending(t, id) && u.retries == t.retries && u.started == t.started
    requires |t.threads| == |u.threads| && forall i :: 0 <= i < |t.threads| ==> t.threads[i].out == u.threads[i].out
    ensures Pending(u, id)
  {
    SameOuts(t, u, t.retries[RetryAt(t.retries, id)].out);
  }

  lemma {:induction false} ReturnChannel(s: State, r: nat, i: nat, ret: nat)
    requires ChannelOk(s) && r in s.tasks && ThreadsOk(s.tasks[r]) && i < |s.tasks[r].threads|
    requires !s.tasks[r].threads[i].returned && ret <= 2
    ensures ChannelOk(Return(s, r, i, ret))
  {
    var t, s' := s.tasks[r], Return(s, r, i, ret);
    var u, n := s'.tasks[r], |s.channel|;
    UniqueIndex(t, i);
    forall k | 0 <= k < n
      ensures WordOk(s', s.channel[k], s.senders[k])
      ensures s.senders[k].task != r || s.senders[k].thread != t.threads[i].id
    {
      assert WordOk(s, s.channel[k], s.senders[k]);
      SameIndex(t.threads, u.threads, s.senders[k].thread);
    }
    SameIndex(t.threads, u.threads, t.threads[i].id);
    assert WordOk(s', s'.channel[n], s'.senders[n]);
  }

  // ---------------------------------------------------------------- the end of a thread

  lemma {:induction false} RemoveFinds(t: Task, i: nat, id: nat)
    requires ThreadsOk(t) && i < |t.threads| && Finds(t, id) && id != t.threads[i].id
    ensures Finds(RemoveThread(t, i), id)
  {
    var j, ths := ThreadIndex(t.threads, id), RemoveThread(t, i).threads;
    var j' := if j < i then j else j - 1;
    assert ths[j'] == t.threads[j];
    assert ThreadIndex(ths, id) == j' by { FirstId(ths, id, j'); }
  }

  lemma {:induction false} FirstId(ths: seq<Thread>, id: nat, k: nat)
    requires k < |ths| && ths[k].id == id && forall j :: 0 <= j < |ths| && j != k ==> ths[j].id != id
    ensures ThreadIndex(ths, id) == k
  {
  }

  /** The first word is from thread number `i` of `r`; without it and that thread the rest still find theirs. */
  lemma {:induction false} PopChannel(s: State, s': State, r: nat, i: nat, u: Task)
    requires ChannelOk(s) && s.channel != [] && s.senders[0].task == r && r in s.tasks
    requires ThreadsOk(s.tasks[r]) && i < |s.tasks[r].threads| && s.tasks[r].threads[i].id == s.senders[0].thread
    requires Updated(s, s', r, u) && s'.channel == s.channel[1..] && s'.senders == s.senders[1..]
    requires u.threads == RemoveThread(s.tasks[r], i).threads
    ensures ChannelOk(s')
  {
    forall k | 1 <= k < |s.senders| && s.senders[k].task == r ensures Finds(u, s.senders[k].thread) {
      assert WordOk(s, s.channel[k], s.senders[k]);
      assert s.senders[0].task == s.senders[k].task;
      RemoveFinds(s.tasks[r], i, s.senders[k].thread);
    }
    ChannelUpdated(s, s', r, u, 1);
  }

  /** An output with a thread has no request waiting for it. */
  lemma {:induction false} NotPending(s: State, r: nat, i: nat)
    requires RequestsOk(s) && r in s.tasks && i < |s.tasks[r].threads|
    requires HasRetry(s.tasks[r], s.tasks[r].threads[i].out)
    requires RetriesOk(s.tasks[r])
    ensures var t := s.tasks[r];
            var p := S.RetryPtr(r, t.retries[RetryIndex(t.retries, t.threads[i].out)].id);
            forall q :: Queued(s.sched, q) ==> q.data != p
  {
    var t := s.tasks[r];
    var k := RetryIndex(t.retries, t.threads[i].out);
    assert HasThread(t, t.threads[i].out);
    forall q | Queued(s.sched, q) ensures q.data != S.RetryPtr(r, t.retries[k].id) {
      assert RequestOk(s, q);
      if q.data == S.RetryPtr(r, t.retries[k].id) {
        FirstRetryId(t.retries, t.retries[k].id, k);
      }
    }
  }

  lemma {:induction false} FirstRetryId(rs: seq<Retry>, id: nat, k: nat)
    requires k < |rs| && rs[k].id == id && forall j :: 0 <= j < |rs| && j != k ==> rs[j].id != id
    ensures RetryAt(rs, id) == k
  {
  }

  lemma NothingToDrop(s: State, r: nat, i: nat)
    requires RequestsOk(s) && r in s.tasks && i < |s.tasks[r].threads| && RetriesOk(s.tasks[r])
    ensures DropRequest(s.sched, r, s.tasks[r], s.tasks[r].threads[i].out) == s.sched
  {
    var t := s.tasks[r];
    var out := t.threads[i].out;
    if HasRetry(t, out) {
      NotPending(s, r, i);
      var p := S.RetryPtr(r, t.retries[RetryIndex(t.retries, out)].id);
      var j := S.IndexOf(s.sched.requests, p);
      if j < |s.sched.requests| {
        assert Queued(s.sched, s.sched.requests[j]);
      }
    }
  }

  /** What is pending for another output stays pending when a thread, and its retry, go. */
  lemma {:induction false} PendingRemove(t: Task, i: nat, id: nat)
    requires ThreadsOk(t) && i < |t.threads| && Pending(t, id)
    ensures Pending(RemoveThread(t, i), id)
  {
    RemoveOuts(t, i);
    assert HasThread(t, t.threads[i].out);
  }

  lemma {:induction false} PendingDrop(t: Task, out: nat, id: nat)
    requires RetriesOk(t) && Pending(t, id) && HasThread(t, out)
    ensures Pending(DropRetry(t, out), id)
  {
    var k, j := RetryIndex(t.retries, out), RetryAt(t.retries, id);
    if k < |t.retries| {
      var rs := DropRetry(t, out).retries;
      var j' := if j < k then j else j - 1;
      assert j != k;
      assert rs[j'] == t.retries[j];
      forall m | 0 <= m < |rs| && m != j' ensures rs[m].id != id {
        assert rs[m] == t.retries[if m < k then m else m + 1];
      }
      FirstRetryId(rs, id, j');
    }
  }

  // ---------------------------------------------------------------- a task is settled

  lemma {:induction false} InvalidateShrinks(sc: S.Sched, p: S.RetryPtr)
    requires S.Owned(sc)
    ensures var r := S.Invalidate(sc, p);
            && S.Owned(r) && r.waiting == sc.waiting
            && (forall q :: q in r.requests ==> q in sc.requests)
            && (forall q :: q in sc.requests && q.data != p ==> q in r.requests)
  {
    var i := S.IndexOf(sc.requests, p);
    if i < |sc.requests| {
      S.DestroyKeepsOwned(sc, i);
    }
  }

  lemma OtherTimer(qs: seq<S.Request>, i: nat, q: S.Request)
    requires S.DistinctTimers(qs) && i < |qs| && q in qs[..i] + qs[i + 1..]
    ensures q in qs && q.timer != qs[i].timer
  {
    var j :| 0 <= j < |qs| - 1 && (qs[..i] + qs[i + 1..])[j] == q;
    assert q == qs[if j < i then j else j + 1];
  }

  /** No armed request for `p` is left, if there was at most one. */
  lemma {:induction false} InvalidateRemoves(sc: S.Sched, p: S.RetryPtr)
    requires S.DistinctTimers(sc.requests)
    requires forall q, q' :: q in sc.requests && q' in sc.requests && q.data == q'.data ==> q == q'
    ensures forall q :: q in S.Invalidate(sc, p).requests ==> q.data != p
  {
    var i := S.IndexOf(sc.requests, p);
    if i < |sc.requests| {
      forall q | q in S.Invalidate(sc, p).requests ensures q.data != p {
        OtherTimer(sc.requests, i, q);
        assert sc.requests[i] in sc.requests;
      }
    }
  }

  lemma {:induction false} InvalidateAllShrinks(sc: S.Sched, r: nat, rs: seq<Retry>)
    requires S.Owned(sc) && forall q, q' :: q in sc.requests && q' in sc.requests && q.data == q'.data ==> q == q'
    ensures var x := InvalidateAll(sc, r, rs);
            && S.Owned(x) && x.waiting == sc.waiting
            && (forall q :: q in x.requests ==> q in sc.requests)
            && (forall q :: q in sc.requests && q.data.task != r ==> q in x.requests)
            && (forall q, k :: q in x.requests && 0 <= k < |rs| ==> q.data != S.RetryPtr(r, rs[k].id))
    decreases |rs|
  {
    if rs != [] {
      var p := S.RetryPtr(r, rs[0].id);
      InvalidateShrinks(sc, p);
      InvalidateRemoves(sc, p);
      InvalidateAllShrinks(S.Invalidate(sc, p), r, rs[1..]);
      var x := InvalidateAll(sc, r, rs);
      forall q, k | q in x.requests && 0 <= k < |rs| ensures q.data != S.RetryPtr(r, rs[k].id) {
        if k > 0 {
          assert rs[k] == rs[1..][k - 1];
        }
      }
    }
  }

  /** Destroying a task without threads. */
  lemma {:induction false} DestroyKeeps(lim: Limits, s: State, r: nat, s': State)
    requires Inv(lim, s) && r in s.tasks && s.tasks[r].threads == [] && s' == DestroyTask(s, r, s.tasks[r])
    ensures Inv(lim, s')
    ensures forall q :: q in s'.sched.requests ==> q.data.task != r
  {
    var t := s.tasks[r];
    assert TaskOk(lim, t);
    DestroySlots(lim, s, r);
    NoWordsFor(s, r);
    DestroyChannel(s, r);
    DestroyRequests(s, r);
  }

  lemma DestroySlots(lim: Limits, s: State, r: nat)
    requires SlotsOk(s) && RefsOk(s) && TasksOk(lim, s) && RetryRefsOk(s) && r in s.tasks
    ensures var s' := DestroyTask(s, r, s.tasks[r]);
            SlotsOk(s') && RefsOk(s') && TasksOk(lim, s') && RetryRefsOk(s')
  {
  }

  lemma DestroyChannel(s: State, r: nat)
    requires ChannelOk(s) && r in s.tasks && s.tasks[r].slot < |s.slots|
    requires forall i :: 0 <= i < |s.senders| ==> s.senders[i].task != r
    ensures ChannelOk(DestroyTask(s, r, s.tasks[r]))
  {
    var s' := DestroyTask(s, r, s.tasks[r]);
    forall k | 0 <= k < |s'.channel| ensures WordOk(s', s'.channel[k], s'.senders[k]) {
      assert WordOk(s, s.channel[k], s.senders[k]);
    }
  }

  lemma {:induction false} DestroyRequests(s: State, r: nat)
    requires RequestsOk(s) && r in s.tasks && s.tasks[r].slot < |s.slots|
    ensures RequestsOk(DestroyTask(s, r, s.tasks[r]))
    ensures forall q :: q in DestroyTask(s, r, s.tasks[r]).sched.requests ==> q.data.task != r
  {
    var t := s.tasks[r];
    var s' := DestroyTask(s, r, t);
    assert forall q :: q in s.sched.requests ==> Queued(s.sched, q);
    InvalidateAllShrinks(s.sched, r, t.retries);
    forall q | Queued(s'.sched, q) ensures Queued(s.sched, q) && RequestOk(s', q) {
      assert RequestOk(s, q);
    }
    forall q | q in s'.sched.requests ensures q.data.task != r {
      assert RequestOk(s, q);
    }
  }

  // ---------------------------------------------------------------- handling a word

  function Popped(s: State): (p: State)
    requires s.channel != [] && s.senders != []
  {
    s.(channel := s.channel[1..], senders := s.senders[1..])
  }

  /** The first word is from thread number `i` of task `r`. */
  predicate FirstFrom(s: State, r: nat, i: nat) {
    && s.channel != [] && s.senders != [] && r in s.tasks && i < |s.tasks[r].threads|
    && s.senders[0].task == r && s.senders[0].thread == s.tasks[r].threads[i].id
  }

  /** The new value of a task whose thread number `i` has ended; `ref` is the next address. */
  ghost predicate Ends(lim: Limits, s: State, r: nat, i: nat, u: Task, ref: nat)
    requires r in s.tasks && i < |s.tasks[r].threads|
  {
    && TaskOk(lim, u) && u.slot == s.tasks[r].slot && s.nextRef <= ref
    && u.threads == RemoveThread(s.tasks[r], i).threads
    && (forall k :: 0 <= k < |u.retries| ==> u.retries[k].id < ref)
    && (forall q :: Queued(s.sched, q) && q.data.task == r ==> Pending(u, q.data.id))
  }

  /** The word is taken, and the task has its new value. */
  function Ended(s: State, r: nat, u: Task, ref: nat): (s1: State)
    requires s.channel != [] && s.senders != []
  {
    Popped(s).(tasks := s.tasks[r := u], nextRef := ref)
  }

  lemma {:induction false} EndsKeeps(lim: Limits, s: State, r: nat, i: nat, u: Task, ref: nat, s': State)
    requires Inv(lim, s) && FirstFrom(s, r, i) && Ends(lim, s, r, i, u, ref) && s' == Ended(s, r, u, ref)
    ensures Inv(lim, s')
  {
    assert TaskOk(lim, s.tasks[r]);
    SlotsUpdated(s, s', r, u);
    TasksUpdated(lim, s, s', r, u);
    PopChannel(s, s', r, i, u);
    RequestsUpdated(s, s', r, u);
  }

  lemma {:induction false} SettleKeeps(lim: Limits, s: State, r: nat, i: nat, u: Task)
    requires Inv(lim, s) && FirstFrom(s, r, i) && Ends(lim, s, r, i, u, s.nextRef)
    ensures Inv(lim, Settle(Popped(s), r, u))
    ensures u.users == 0 ==> forall q :: q in Settle(Popped(s), r, u).sched.requests ==> q.data.task != r
  {
    var s1 := Popped(s).(tasks := s.tasks[r := u]);
    EndsKeeps(lim, s, r, i, u, s.nextRef, s1);
    assert ThreadsOk(u);
    SettledKeeps(lim, Popped(s), s1, r, u);
  }

  /** If all is well with the new value of a task in place, so it is after settling the task. */
  lemma {:induction false} SettledKeeps(lim: Limits, s: State, s1: State, r: nat, u: Task)
    requires Inv(lim, s1) && s1 == s.(tasks := s.tasks[r := u]) && u.slot < |s.slots|
    requires u.users == 0 ==> u.threads == []
    ensures Inv(lim, Settle(s, r, u))
    ensures u.users == 0 ==> forall q :: q in Settle(s, r, u).sched.requests ==> q.data.task != r
  {
    if u.users == 0 {
      assert s1.tasks - {r} == s.tasks - {r};
      DestroyKeeps(lim, s1, r, Settle(s, r, u));
    } else {
      assert Settle(s, r, u) == s1;
    }
  }

  lemma {:induction false} AbandonEnds(lim: Limits, s: State, r: nat, i: nat)
    requires Inv(lim, s) && r in s.tasks && i < |s.tasks[r].threads|
    ensures Ends(lim, s, r, i, RemoveThread(s.tasks[r], i), s.nextRef)
  {
    var t := s.tasks[r];
    assert TaskOk(lim, t);
    AbandonOk(lim, t, i);
    forall q | Queued(s.sched, q) && q.data.task == r ensures Pending(RemoveThread(t, i), q.data.id) {
      assert RequestOk(s, q);
      PendingRemove(t, i, q.data.id);
    }
  }

  /** The task after its thread and the retry of its output are gone. */
  function Concluded(t: Task, i: nat): (u: Task)
    requires i < |t.threads|
  {
    RemoveThread(DropRetry(t, t.threads[i].out), i)
  }

  lemma {:induction false} PendingConclude(t: Task, i: nat, id: nat)
    requires ThreadsOk(t) && RetriesOk(t) && i < |t.threads| && Pending(t, id)
    ensures Pending(Concluded(t, i), id)
  {
    var out := t.threads[i].out;
    assert HasThread(t, out);
    PendingDrop(t, out, id);
    PendingRemove(DropRetry(t, out), i, id);
  }

  lemma {:induction false} ConcludeEnds(lim: Limits, s: State, r: nat, i: nat)
    requires Inv(lim, s) && r in s.tasks && i < |s.tasks[r].threads|
    ensures Ends(lim, s, r, i, Concluded(s.tasks[r], i), s.nextRef)
  {
    var t, u := s.tasks[r], Concluded(s.tasks[r], i);
    var out := t.threads[i].out;
    assert TaskOk(lim, t);
    ConcludeOk(lim, t, i);
    assert HasThread(t, out);
    forall q | Queued(s.sched, q) && q.data.task == r ensures Pending(u, q.data.id) {
      assert RequestOk(s, q);
      PendingConclude(t, i, q.data.id);
    }
    forall k | 0 <= k < |u.retries| ensures u.retries[k].id < s.nextRef {
      assert u.retries[k] in t.retries;
    }
  }

  lemma {:induction false} ConcludeKeeps(lim: Limits, s: State, r: nat, i: nat)
    requires Inv(lim, s) && FirstFrom(s, r, i) && s.tasks[r].slot < |s.slots|
    ensures Conclude(Popped(s), r, i) == Settle(Popped(s), r, Concluded(s.tasks[r], i))
    ensures Inv(lim, Conclude(Popped(s), r, i))
  {
    assert TaskOk(lim, s.tasks[r]);
    NothingToDrop(s, r, i);
    ConcludeEnds(lim, s, r, i);
    SettleKeeps(lim, s, r, i, Concluded(s.tasks[r], i));
  }

  lemma {:induction false} AbandonKeeps(lim: Limits, s: State, r: nat, i: nat)
    requires Inv(lim, s) && FirstFrom(s, r, i) && s.tasks[r].slot < |s.slots|
    ensures Inv(lim, Abandon(Popped(s), r, i))
  {
    AbandonEnds(lim, s, r, i);
    SettleKeeps(lim, s, r, i, RemoveThread(s.tasks[r], i));
  }

  // ---------------------------------------------------------------- a retry is scheduled

  lemma {:induction false} CreateQueued(sc: S.Sched, p: S.RetryPtr, seconds: nat, q: S.Request)
    requires Queued(S.Create(sc, p, seconds), q)
    ensures Queued(sc, q) || (q.data == p && q.timer == sc.nextTimer)
  {
  }

  lemma {:induction false} AddRequest(s: State, p: S.RetryPtr, seconds: nat)
    requires RequestsOk(s) && p.task in s.tasks && p.task < s.nextRef && p.id < s.nextRef
    requires Pending(s.tasks[p.task], p.id) && forall q :: Queued(s.sched, q) ==> q.data != p
    ensures RequestsOk(s.(sched := S.Create(s.sched, p, seconds)))
  {
    var sc := S.Create(s.sched, p, seconds);
    S.CreateKeepsOwned(s.sched, p, seconds);
    forall q | Queued(sc, q) ensures RequestOk(s.(sched := sc), q) {
      CreateQueued(s.sched, p, seconds, q);
      assert Queued(s.sched, q) ==> RequestOk(s, q);
    }
    forall q, q' | Queued(sc, q) && Queued(sc, q') && q.data == q'.data ensures q == q' {
      CreateQueued(s.sched, p, seconds, q);
      CreateQueued(s.sched, p, seconds, q');
      if !(Queued(s.sched, q) && Queued(s.sched, q')) {
        OneNew(s.sched, p, seconds, q);
        OneNew(s.sched, p, seconds, q');
      }
    }
  }

  /** Only one request has the new timer. */
  lemma {:induction false} OneNew(sc: S.Sched, p: S.RetryPtr, seconds: nat, q: S.Request)
    requires Queued(S.Create(sc, p, seconds), q) && q.data == p && forall x :: Queued(sc, x) ==> x.data != p
    ensures var n := S.Request(p, sc.now, seconds, sc.nextTimer, S.Unarmed);
            q == if seconds > S.FRAME then n else S.Arm(n, seconds, sc.now)
  {
    assert !Queued(sc, q);
  }

  lemma {:induction false} PendingMore(t: Task, out: nat, ref: nat, id: nat)
    requires RetriesOk(t) && Pending(t, id) && HasThread(t, out) && id != ref
    ensures Pending(MoreRetry(t, out, ref), id)
  {
    var k, j, u := RetryIndex(t.retries, out), RetryAt(t.retries, id), MoreRetry(t, out, ref);
    assert j != k;
    FirstRetryId(u.retries, id, j);
    SameOuts(t, u, t.retries[j].out);
  }

  /** The retry just made is pending: no thread, and as many attempts as threads. */
  lemma {:induction false} RescheduledPending(lim: Limits, t: Task, i: nat, ref: nat)
    requires TaskOk(lim, t) && i < |t.threads| && !LimitReached(lim, t, t.threads[i].out)
    requires forall k :: 0 <= k < |t.retries| ==> t.retries[k].id < ref
    ensures var u := Rescheduled(t, i, ref);
            var k := RetryIndex(u.retries, t.threads[i].out);
            k < |u.retries| && Pending(u, u.retries[k].id)
  {
    var out, u := t.threads[i].out, Rescheduled(t, i, ref);
    RescheduledOk(lim, t, i, ref);
    var k := RetryIndex(u.retries, out);
    FirstRetryId(u.retries, u.retries[k].id, k);
    RemoveOuts(MoreRetry(t, out, ref), i);
  }

  lemma {:induction false} RescheduleEnds(lim: Limits, s: State, r: nat, i: nat)
    requires Inv(lim, s) && r in s.tasks && i < |s.tasks[r].threads|
    requires !LimitReached(lim, s.tasks[r], s.tasks[r].threads[i].out)
    ensures Ends(lim, s, r, i, Rescheduled(s.tasks[r], i, s.nextRef), s.nextRef + 1)
  {
    var t, u := s.tasks[r], Rescheduled(s.tasks[r], i, s.nextRef);
    var out := t.threads[i].out;
    assert TaskOk(lim, t);
    RescheduledOk(lim, t, i, s.nextRef);
    assert HasThread(t, out);
    forall q | Queued(s.sched, q) && q.data.task == r ensures Pending(u, q.data.id) {
      assert RequestOk(s, q);
      PendingReschedule(t, i, s.nextRef, q.data.id);
    }
  }

  lemma {:induction false} PendingReschedule(t: Task, i: nat, ref: nat, id: nat)
    requires ThreadsOk(t) && RetriesOk(t) && i < |t.threads| && Pending(t, id) && id != ref
    ensures Pending(Rescheduled(t, i, ref), id)
  {
    var out := t.threads[i].out;
    assert HasThread(t, out);
    PendingMore(t, out, ref, id);
    PendingRemove(MoreRetry(t, out, ref), i, id);
  }

  /** No request yet for the retry that is about to be scheduled. */
  lemma {:induction false} NoneYet(lim: Limits, s: State, r: nat, i: nat)
    requires Inv(lim, s) && r in s.tasks && i < |s.tasks[r].threads|
    ensures var out := s.tasks[r].threads[i].out;
            var u := MoreRetry(s.tasks[r], out, s.nextRef);
            var id := u.retries[RetryIndex(u.retries, out)].id;
            id <= s.nextRef && forall q :: Queued(s.sched, q) ==> q.data != S.RetryPtr(r, id)
  {
    var t := s.tasks[r];
    var out := t.threads[i].out;
    assert TaskOk(lim, t);
    var u := MoreRetry(t, out, s.nextRef);
    FirstRetry(u.retries, out, RetryIndex(t.retries, out));
    if HasRetry(t, out) {
      NotPending(s, r, i);
    } else {
      assert forall q :: Queued(s.sched, q) ==> RequestOk(s, q);
    }
  }

  /** Only the schedule changes. */
  lemma SchedOnly(lim: Limits, s: State, sc: S.Sched)
    requires Inv(lim, s) && RequestsOk(s.(sched := sc))
    ensures Inv(lim, s.(sched := sc))
  {
    var s' := s.(sched := sc);
    forall i | 0 <= i < |s.channel| ensures WordOk(s', s.channel[i], s.senders[i]) {
      assert WordOk(s, s.channel[i], s.senders[i]);
    }
  }

  /** The address of the retry of this output once one more attempt is counted. */
  function NextPtr(t: Task, r: nat, out: nat, ref: nat): (p: S.RetryPtr) {
    var m := MoreRetry(t, out, ref);
    S.RetryPtr(r, m.retries[RetryIndex(m.retries, out)].id)
  }

  /** The state with the retry counted and the thread gone, before the request is made. */
  function Counted(s: State, r: nat, i: nat): (s1: State)
    requires s.channel != [] && s.senders != [] && r in s.tasks && i < |s.tasks[r].threads|
  {
    Ended(s, r, Rescheduled(s.tasks[r], i, s.nextRef), s.nextRef + 1)
  }

  lemma {:induction false} RescheduleForm(s: State, r: nat, i: nat, seconds: nat)
    requires s.channel != [] && s.senders != [] && r in s.tasks && i < |s.tasks[r].threads|
    ensures var s1 := Counted(s, r, i);
            Reschedule(Popped(s), r, i, seconds) ==
            s1.(sched := S.Create(s.sched, NextPtr(s.tasks[r], r, s.tasks[r].threads[i].out, s.nextRef), seconds))
  {
  }

  lemma {:induction false} RescheduleRequest(lim: Limits, s: State, r: nat, i: nat, seconds: nat)
    requires Inv(lim, s) && FirstFrom(s, r, i) && !LimitReached(lim, s.tasks[r], s.tasks[r].threads[i].out)
    requires RequestsOk(Counted(s, r, i))
    ensures var s1, p := Counted(s, r, i), NextPtr(s.tasks[r], r, s.tasks[r].threads[i].out, s.nextRef);
            RequestsOk(s1.(sched := S.Create(s.sched, p, seconds)))
  {
    var t, s1 := s.tasks[r], Counted(s, r, i);
    assert TaskOk(lim, t);
    NoneYet(lim, s, r, i);
    RescheduledPending(lim, t, i, s.nextRef);
    AddRequest(s1, NextPtr(t, r, t.threads[i].out, s.nextRef), seconds);
  }

  lemma {:induction false} CountedKeeps(lim: Limits, s: State, r: nat, i: nat)
    requires Inv(lim, s) && FirstFrom(s, r, i) && !LimitReached(lim, s.tasks[r], s.tasks[r].threads[i].out)
    ensures Inv(lim, Counted(s, r, i))
  {
    RescheduleEnds(lim, s, r, i);
    EndsKeeps(lim, s, r, i, Rescheduled(s.tasks[r], i, s.nextRef), s.nextRef + 1, Counted(s, r, i));
  }

  lemma {:induction false} RescheduleKeeps(lim: Limits, s: State, r: nat, i: nat, seconds: nat)
    requires Inv(lim, s) && FirstFrom(s, r, i) && !LimitReached(lim, s.tasks[r], s.tasks[r].threads[i].out)
    ensures Inv(lim, Reschedule(Popped(s), r, i, seconds))
  {
    CountedKeeps(lim, s, r, i);
    RescheduleRequest(lim, s, r, i, seconds);
    RescheduleForm(s, r, i, seconds);
    SchedOnly(lim, Counted(s, r, i), Reschedule(Popped(s), r, i, seconds).sched);
  }

  // ---------------------------------------------------------------- timers

  lemma {:induction false} FireTask(lim: Limits, s: State, i: nat)
    requires Inv(lim, s) && i < |s.sched.requests| && s.sched.requests[i].data.task in s.tasks
    ensures Live(s, s.sched.requests[i].data)
    ensures var p := s.sched.requests[i].data;
            TaskOk(lim, Fire(s, i).tasks[p.task])
  {
    var q := s.sched.requests[i];
    assert Queued(s.sched, q) && RequestOk(s, q);
    var t := s.tasks[q.data.task];
    assert TaskOk(lim, t);
    FireOk(lim, t, RetryAt(t.retries, q.data.id));
  }

  lemma {:induction false} PendingAdd(t: Task, out: nat, id: nat)
    requires Pending(t, id) && t.retries[RetryAt(t.retries, id)].out != out
    ensures Pending(AddThread(t, out), id)
  {
    var o := t.retries[RetryAt(t.retries, id)].out;
    assert multiset(t.started + [out])[o] == multiset(t.started)[o];
  }

  lemma {:induction false} DestroyQueued(sc: S.Sched, i: nat, q: S.Request)
    requires S.Owned(sc) && i < |sc.requests| && Queued(S.Destroy(sc, i), q)
    ensures Queued(sc, q) && q != sc.requests[i]
  {
    S.InTimers(sc.requests, i);
    if q in sc.waiting {
      assert q.timer in S.TimersOf(sc.waiting);
    }
  }

  lemma {:induction false} FireKeeps(lim: Limits, s: State, i: nat, s': State)
    requires Inv(lim, s) && i < |s.sched.requests| && Live(s, s.sched.requests[i].data) && s' == Fire(s, i)
    ensures Inv(lim, s')
  {
    FireTask(lim, s, i);
    var q0 := s.sched.requests[i];
    var r := q0.data.task;
    var t := s.tasks[r];
    var u := s'.tasks[r];
    assert TaskOk(lim, t);
    SlotsUpdated(s, s', r, u);
    TasksUpdated(lim, s, s', r, u);
    FireChannel(s, s', r, u);
    FireRequests(s, i);
  }

  lemma {:induction false} FireChannel(s: State, s': State, r: nat, u: Task)
    requires ChannelOk(s) && Updated(s, s', r, u) && s'.channel == s.channel && s'.senders == s.senders
    requires |s.tasks[r].threads| <= |u.threads| && u.threads[..|s.tasks[r].threads|] == s.tasks[r].threads
    ensures ChannelOk(s')
  {
    var ths := s.tasks[r].threads;
    forall k | 0 <= k < |s.senders| && s.senders[k].task == r ensures Finds(u, s.senders[k].thread) {
      assert WordOk(s, s.channel[k], s.senders[k]);
      var j := ThreadIndex(ths, s.senders[k].thread);
      assert forall m :: 0 <= m <= j ==> u.threads[m] == ths[m];
    }
    assert s.channel[0..] == s.channel && s.senders[0..] == s.senders;
    ChannelUpdated(s, s', r, u, 0);
  }

  lemma {:induction false} FireRequests(s: State, i: nat)
    requires RequestsOk(s) && i < |s.sched.requests| && Live(s, s.sched.requests[i].data)
    requires RetriesOk(s.tasks[s.sched.requests[i].data.task])
    ensures RequestsOk(Fire(s, i))
  {
    var q0 := s.sched.requests[i];
    var r := q0.data.task;
    var t, s' := s.tasks[r], Fire(s, i);
    S.DestroyKeepsOwned(s.sched, i);
    assert Queued(s.sched, q0) && RequestOk(s, q0);
    var k0 := RetryAt(t.retries, q0.data.id);
    forall q | Queued(s'.sched, q) ensures Queued(s.sched, q) && RequestOk(s', q) {
      DestroyQueued(s.sched, i, q);
      assert RequestOk(s, q);
      if q.data.task == r {
        assert q.data != q0.data;
        var k := RetryAt(t.retries, q.data.id);
        assert k != k0;
        PendingAdd(t, t.retries[k0].out, q.data.id);
      }
    }
  }

  lemma {:induction false} ParkedFrom(qs: seq<S.Request>, now: int, q: S.Request)
    requires q in S.Parked(qs, now)
    ensures q in qs
    decreases |qs|
  {
    if S.Due(qs[0], now) || q != qs[0] {
      ParkedFrom(qs[1..], now, q);
    }
  }

  /** The request before the frame tick that `q` was. */
  lemma {:induction false} FrameFrom(sc: S.Sched, q: S.Request) returns (w: S.Request)
    requires Queued(S.FrameTick(sc), q)
    ensures Queued(sc, w) && q.data == w.data && q.timer == w.timer
    ensures q == w || (w in sc.waiting && q == S.Arm(w, S.Left(w, sc.now), sc.now))
  {
    if q in sc.requests {
      w := q;
    } else if q in S.Promoted(sc.waiting, sc.now) {
      w := S.PromotedFrom(sc.waiting, sc.now, q);
    } else {
      ParkedFrom(sc.waiting, sc.now, q);
      w := q;
    }
  }

  lemma {:induction false} FrameKeeps(lim: Limits, s: State, s': State)
    requires Inv(lim, s) && s' == s.(sched := S.FrameTick(s.sched))
    ensures Inv(lim, s')
  {
    S.FrameKeepsOwned(s.sched);
    forall q | Queued(s'.sched, q) ensures RequestOk(s', q) {
      var w := FrameFrom(s.sched, q);
      assert RequestOk(s, w);
    }
    forall q, q' | Queued(s'.sched, q) && Queued(s'.sched, q') && q.data == q'.data ensures q == q' {
      var w := FrameFrom(s.sched, q);
      var w' := FrameFrom(s.sched, q');
      assert w == w';
      SameTimer(s.sched, q, q');
    }
    SchedOnly(lim, s, s'.sched);
  }

  /** In one schedule a timer belongs to one request. */
  lemma {:induction false} SameTimer(sc: S.Sched, q: S.Request, q': S.Request)
    requires S.Owned(S.FrameTick(sc)) && Queued(S.FrameTick(sc), q) && Queued(S.FrameTick(sc), q')
    requires q.timer == q'.timer
    ensures q == q'
  {
    var f := S.FrameTick(sc);
    if q in f.requests {
      assert q.timer in S.TimersOf(f.requests);
      assert q' in f.waiting ==> q'.timer in S.TimersOf(f.waiting);
    } else {
      assert q.timer in S.TimersOf(f.waiting);
      assert q' in f.requests ==> q'.timer in S.TimersOf(f.requests);
    }
  }

  lemma TickKeeps(lim: Limits, s: State, s': State)
    requires Inv(lim, s) && s' == s.(sched := s.sched.(now := s.sched.now + 1))
    ensures Inv(lim, s')
  {
    forall q | Queued(s'.sched, q) ensures RequestOk(s', q) {
      assert Queued(s.sched, q) && RequestOk(s, q);
    }
    forall q, q' | Queued(s'.sched, q) && Queued(s'.sched, q') && q.data == q'.data ensures q == q' {
      assert Queued(s.sched, q) && Queued(s.sched, q');
    }
    SchedOnly(lim, s, s'.sched);
  }
}
