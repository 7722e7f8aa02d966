/**
 What every step of the engine keeps: slots, threads, queued words, retries and scheduled
 requests agree with each other.
 */
module TaskInv {
  import opened TaskWord
  import opened TaskModel
  import opened Wrappers
  import S = Scheduler

  // ---------------------------------------------------------------- one task

  predicate ThreadsOk(t: Task) {
    && t.users == |t.threads| && t.nThreads == |t.started|
    && (forall i :: 0 <= i < |t.threads| ==>
          t.threads[i].id < t.nThreads && t.threads[i].out in t.routes)
    && (forall i, j :: 0 <= i < j < |t.threads| ==>
          t.threads[i].id != t.threads[j].id && t.threads[i].out != t.threads[j].out)
  }

  predicate RetriesOk(t: Task) {
    && (forall i :: 0 <= i < |t.retries| ==> t.retries[i].out in t.routes)
    && (forall i, j :: 0 <= i < j < |t.retries| ==>
          t.retries[i].out != t.retries[j].out && t.retries[i].id != t.retries[j].id)
  }

  /** How often a thread was started for the output. */
  function Count(t: Task, out: nat): (n: nat) { multiset(t.started)[out] }

  /** The retry counter follows the number of threads started, and the limit bounds both. */
  predicate RouteOk(lim: Limits, t: Task, out: nat) {
    var c, l := Count(t, out), Limit(lim, out);
    && (l >= 0 ==> c <= l + 2)
    && (t.running ==> c >= 1)
    && (HasThread(t, out) && !HasRetry(t, out) ==> c == 1)
    && (HasRetry(t, out) ==>
          var a := Attempts(t, out);
          && a >= 1 && (l >= 0 ==> a <= l + 1)
          && (if HasThread(t, out) then c == a + 1 else a <= c <= a + 1))
  }

  predicate TaskOk(lim: Limits, t: Task) {
    && t.slot < SLOTS
    && ThreadsOk(t) && RetriesOk(t)
    && (forall i, j :: 0 <= i < j < |t.routes| ==> t.routes[i] != t.routes[j])
    && (forall o :: o in t.routes ==> RouteOk(lim, t, o))
    && (!t.running ==> t.threads == [] && t.retries == [] && t.started == [])
  }

  // ---------------------------------------------------------------- slots

  predicate SlotsOk(s: State) {
    && |s.slots| == SLOTS
    && (forall i :: 0 <= i < SLOTS && s.slots[i].Some? ==>
          s.slots[i].value in s.tasks && s.tasks[s.slots[i].value].slot == i)
    && (forall r :: r in s.tasks ==> s.tasks[r].slot < SLOTS && s.slots[s.tasks[r].slot] == Some(r))
  }

  predicate RefsOk(s: State) { forall r :: r in s.tasks ==> r < s.nextRef }

  predicate TasksOk(lim: Limits, s: State) { forall r :: r in s.tasks ==> TaskOk(lim, s.tasks[r]) }

  // ---------------------------------------------------------------- queued words

  /** The word names the slot of the task that sent it, and a thread of it that has returned. */
  predicate WordOk(s: State, w: nat, d: Sender) {
    && d.task in s.tasks && d.ret <= 2
    && w == Encode(Signal(d.ret, s.tasks[d.task].slot, d.thread))
    && var ths := s.tasks[d.task].threads;
    && var i := ThreadIndex(ths, d.thread);
    i < |ths| && ths[i].returned
  }

  predicate ChannelOk(s: State) {
    && |s.channel| == |s.senders|
    && (forall i :: 0 <= i < |s.channel| ==> WordOk(s, s.channel[i], s.senders[i]))
    && (forall i, j :: 0 <= i < j < |s.senders| ==>
          s.senders[i].task != s.senders[j].task || s.senders[i].thread != s.senders[j].thread)
  }

  // ---------------------------------------------------------------- scheduled requests

  predicate Queued(sc: S.Sched, q: S.Request) { q in sc.requests || q in sc.waiting }

  /** The retry is there, its output has no thread, and it counts the threads started. */
  predicate Pending(t: Task, id: nat) {
    var k := RetryAt(t.retries, id);
    k < |t.retries| && !HasThread(t, t.retries[k].out) && Count(t, t.retries[k].out) == t.retries[k].attempts
  }

  predicate RequestOk(s: State, q: S.Request) {
    q.data.id < s.nextRef && q.data.task < s.nextRef &&
    (q.data.task in s.tasks ==> Pending(s.tasks[q.data.task], q.data.id))
  }

  ghost predicate RequestsOk(s: State) {
    && S.Owned(s.sched)
    && (forall q, q' :: Queued(s.sched, q) && Queued(s.sched, q') && q.data == q'.data ==> q == q')
    && (forall q :: Queued(s.sched, q) ==> RequestOk(s, q))
  }

  /** A retry id of a live task is one that was given out. */
  predicate RetryRefsOk(s: State) {
    forall r, k :: r in s.tasks && 0 <= k < |s.tasks[r].retries| ==> s.tasks[r].retries[k].id < s.nextRef
  }

  ghost predicate Inv(lim: Limits, s: State) {
    SlotsOk(s) && RefsOk(s) && TasksOk(lim, s) && ChannelOk(s) && RequestsOk(s) && RetryRefsOk(s)
  }

  /** No task has had more threads than thread ids fit the word. */
  predicate Bounded(s: State) { forall r :: r in s.tasks ==> s.tasks[r].nThreads <= THREADS }

  // ---------------------------------------------------------------- the word finds its sender

  /** The next word decodes to the very task that sent it and to a linked, returned thread of it. */
  predicate FindsSender(s: State) {
    && Decodes(s)
    && var g, d := Decode(s.channel[0]), s.senders[0];
    && s.slots[g.slot] == Some(d.task) && g.ret == d.ret && g.thread == d.thread
    && var ths := s.tasks[d.task].threads;
    && ths[ThreadIndex(ths, g.thread)].id == d.thread && ths[ThreadIndex(ths, g.thread)].returned
  }

  lemma WordFindsSender(lim: Limits, s: State)
    requires Inv(lim, s) && Bounded(s) && s.channel != []
    ensures FindsSender(s)
  {
    var d := s.senders[0];
    assert WordOk(s, s.channel[0], d);
    var t := s.tasks[d.task];
    assert TaskOk(lim, t);
    SignalComesBack(Signal(d.ret, t.slot, d.thread));
  }

  // ---------------------------------------------------------------- steps on one task

  lemma {:induction false} DistinctCount(xs: seq<nat>, x: nat)
    requires forall i, j :: 0 <= i < j < |xs| ==> xs[i] != xs[j]
    requires x in xs
    ensures multiset(xs)[x] == 1
  {
    var k :| 0 <= k < |xs| && xs[k] == x;
    assert xs == xs[..k] + [x] + xs[k + 1..];
    assert x !in multiset(xs[..k]) && x !in multiset(xs[k + 1..]);
  }

  lemma {:induction false} AddThreadsForm(t: Task, outs: seq<nat>)
    ensures AddThreads(t, outs) ==
            t.(nThreads := t.nThreads + |outs|, users := t.users + |outs|, started := t.started + outs,
               threads := t.threads + seq(|outs|, i requires 0 <= i < |outs| => Thread(t.nThreads + i, outs[i], false)))
    decreases |outs|
  {
    var added := seq(|outs|, i requires 0 <= i < |outs| => Thread(t.nThreads + i, outs[i], false));
    if outs == [] {
      assert t.threads + added == t.threads && t.started + outs == t.started;
    } else {
      var u, rest := AddThread(t, outs[0]), outs[1..];
      AddThreadsForm(u, rest);
      assert u.threads + seq(|rest|, i requires 0 <= i < |rest| => Thread(u.nThreads + i, rest[i], false)) ==
             t.threads + added;
      assert u.started + rest == t.started + outs;
    }
  }

  lemma NewTaskOk(lim: Limits, slot: nat, routes: seq<nat>)
    requires slot < SLOTS && forall i, j :: 0 <= i < j < |routes| ==> routes[i] != routes[j]
    ensures TaskOk(lim, Task(slot, false, 0, 0, [], routes, [], []))
  {
  }

  /** A task as `tasks_start` leaves it: one thread per route, in order. */
  predicate Started(t: Task) {
    && t.running && t.retries == [] && t.started == t.routes
    && t.users == t.nThreads == |t.threads| == |t.routes|
    && forall i :: 0 <= i < |t.threads| ==> t.threads[i] == Thread(i, t.routes[i], false)
  }

  lemma {:induction false} StartForm(t: Task)
    requires t.threads == [] && t.retries == [] && t.started == [] && t.nThreads == 0 && t.users == 0
    ensures var u := AddThreads(t.(running := true), t.routes);
            Started(u) && u.slot == t.slot && u.routes == t.routes
  {
    AddThreadsForm(t.(running := true), t.routes);
    FreshStarted(t, AddThreads(t.(running := true), t.routes));
  }

  lemma {:induction false} FreshStarted(t: Task, u: Task)
    requires t.threads == [] && t.retries == [] && t.started == [] && t.nThreads == 0 && t.users == 0
    requires var n, outs := |t.routes|, t.routes;
             u == t.(running := true, nThreads := n, users := n, started := [] + outs,
                     threads := [] + seq(n, i requires 0 <= i < n => Thread(0 + i, outs[i], false)))
    ensures Started(u) && u.slot == t.slot && u.routes == t.routes
  {
  }

  lemma {:induction false} StartedOk(lim: Limits, u: Task)
    requires Started(u) && u.slot < SLOTS
    requires forall i, j :: 0 <= i < j < |u.routes| ==> u.routes[i] != u.routes[j]
    ensures TaskOk(lim, u)
  {
    forall o | o in u.routes ensures RouteOk(lim, u, o) {
      DistinctCount(u.routes, o);
      assert !HasRetry(u, o);
    }
  }

  lemma ReturnOk(lim: Limits, t: Task, i: nat)
    requires TaskOk(lim, t) && i < |t.threads|
    ensures TaskOk(lim, t.(threads := t.threads[i := t.threads[i].(returned := true)]))
  {
    var u := t.(threads := t.threads[i := t.threads[i].(returned := true)]);
    forall o | o in t.routes ensures RouteOk(lim, u, o) {
      assert RouteOk(lim, t, o);
      SameOuts(t, u, o);
    }
  }

  lemma SameOuts(t: Task, u: Task, o: nat)
    requires |t.threads| == |u.threads| && forall i :: 0 <= i < |t.threads| ==> t.threads[i].out == u.threads[i].out
    ensures HasThread(t, o) <==> HasThread(u, o)
  {
  }

  /** Removing the thread of an output leaves the threads of the others. */
  lemma RemoveOuts(t: Task, i: nat)
    requires ThreadsOk(t) && i < |t.threads|
    ensures !HasThread(RemoveThread(t, i), t.threads[i].out)
    ensures forall o :: o != t.threads[i].out ==> (HasThread(RemoveThread(t, i), o) <==> HasThread(t, o))
  {
    var u := RemoveThread(t, i);
    forall o | o != t.threads[i].out ensures HasThread(u, o) <==> HasThread(t, o) {
      if HasThread(t, o) {
        var j :| 0 <= j < |t.threads| && t.threads[j].out == o;
        assert u.threads[if j < i then j else j - 1].out == o;
      }
    }
  }

  lemma RemoveThreadsOk(t: Task, i: nat)
    requires ThreadsOk(t) && i < |t.threads|
    ensures ThreadsOk(RemoveThread(t, i))
  {
  }

  /** Where a retry is after another one has been dropped. */
  lemma {:induction false} DropIndex(t: Task, out: nat, o: nat)
    requires o != out && RetryIndex(t.retries, out) < |t.retries| && HasRetry(t, o)
    ensures var k, j := RetryIndex(t.retries, out), RetryIndex(t.retries, o);
            var i := if j < k then j else j - 1;
            var u := DropRetry(t, out);
            i < |u.retries| && u.retries[i] == t.retries[j] && RetryIndex(u.retries, o) == i
  {
    var k, j, u := RetryIndex(t.retries, out), RetryIndex(t.retries, o), DropRetry(t, out);
    var i := if j < k then j else j - 1;
    assert j != k;
    forall l | 0 <= l < i ensures u.retries[l].out != o {
      assert u.retries[l] == t.retries[if l < k then l else l + 1];
    }
    FirstRetry(u.retries, o, i);
  }

  lemma {:induction false} DropOthers(t: Task, out: nat, o: nat)
    requires RetriesOk(t) && o != out
    ensures HasRetry(DropRetry(t, out), o) <==> HasRetry(t, o)
    ensures HasRetry(t, o) ==> Attempts(DropRetry(t, out), o) == Attempts(t, o)
  {
    var k, u := RetryIndex(t.retries, out), DropRetry(t, out);
    if k < |t.retries| {
      if HasRetry(t, o) {
        DropIndex(t, out, o);
      } else {
        forall j | 0 <= j < |u.retries| ensures u.retries[j].out != o {
          assert u.retries[j] == t.retries[if j < k then j else j + 1];
        }
      }
    }
  }

  lemma {:induction false} DropGone(t: Task, out: nat)
    requires RetriesOk(t)
    ensures RetriesOk(DropRetry(t, out)) && !HasRetry(DropRetry(t, out), out)
  {
    var k, u := RetryIndex(t.retries, out), DropRetry(t, out);
    if k < |t.retries| {
      forall j | 0 <= j < |u.retries| ensures u.retries[j].out in t.routes && u.retries[j].out != out {
        assert u.retries[j] == t.retries[if j < k then j else j + 1];
      }
      forall i, j | 0 <= i < j < |u.retries|
        ensures u.retries[i].out != u.retries[j].out && u.retries[i].id != u.retries[j].id
      {
        assert u.retries[i] == t.retries[if i < k then i else i + 1];
        assert u.retries[j] == t.retries[if j < k then j else j + 1];
      }
    }
  }

  lemma {:induction false} AbandonOk(lim: Limits, t: Task, i: nat)
    requires TaskOk(lim, t) && i < |t.threads|
    ensures TaskOk(lim, RemoveThread(t, i))
  {
    var u, out := RemoveThread(t, i), t.threads[i].out;
    RemoveThreadsOk(t, i);
    RemoveOuts(t, i);
    forall o | o in t.routes ensures RouteOk(lim, u, o) {
      assert RouteOk(lim, t, o);
      assert o == out ==> HasThread(t, o);
    }
  }

  lemma {:induction false} ConcludeOk(lim: Limits, t: Task, i: nat)
    requires TaskOk(lim, t) && i < |t.threads|
    ensures TaskOk(lim, RemoveThread(DropRetry(t, t.threads[i].out), i))
  {
    var out := t.threads[i].out;
    var d := DropRetry(t, out);
    var u := RemoveThread(d, i);
    RemoveThreadsOk(d, i);
    RemoveOuts(d, i);
    DropGone(t, out);
    forall o | o in t.routes ensures RouteOk(lim, u, o) {
      assert RouteOk(lim, t, o);
      if o != out {
        DropOthers(t, out, o);
      }
    }
  }

  /** The task after a retry has been scheduled for the output of thread number `i`. */
  function Rescheduled(t: Task, i: nat, ref: nat): (u: Task)
    requires i < |t.threads|
  {
    RemoveThread(MoreRetry(t, t.threads[i].out, ref), i)
  }

  lemma {:induction false} MoreRetryOthers(t: Task, out: nat, ref: nat, o: nat)
    requires o != out
    ensures var u := MoreRetry(t, out, ref);
            (HasRetry(u, o) <==> HasRetry(t, o)) && (HasRetry(t, o) ==> Attempts(u, o) == Attempts(t, o))
  {
    if HasRetry(t, o) {
      FirstRetry(MoreRetry(t, out, ref).retries, o, RetryIndex(t.retries, o));
    }
  }

  lemma {:induction false} MoreRetryOwn(t: Task, out: nat, ref: nat)
    ensures Attempts(MoreRetry(t, out, ref), out) == (if HasRetry(t, out) then Attempts(t, out) + 1 else 1)
  {
    FirstRetry(MoreRetry(t, out, ref).retries, out, RetryIndex(t.retries, out));
  }

  lemma {:induction false} MoreRetryOk(t: Task, out: nat, ref: nat)
    requires RetriesOk(t) && out in t.routes && forall k :: 0 <= k < |t.retries| ==> t.retries[k].id < ref
    ensures RetriesOk(MoreRetry(t, out, ref))
  {
  }

  lemma {:induction false} RescheduledOk(lim: Limits, t: Task, i: nat, ref: nat)
    requires TaskOk(lim, t) && i < |t.threads| && !LimitReached(lim, t, t.threads[i].out)
    requires forall k :: 0 <= k < |t.retries| ==> t.retries[k].id < ref
    ensures TaskOk(lim, Rescheduled(t, i, ref))
    ensures Attempts(Rescheduled(t, i, ref), t.threads[i].out) == Count(t, t.threads[i].out)
  {
    var out := t.threads[i].out;
    var m := MoreRetry(t, out, ref);
    var u := Rescheduled(t, i, ref);
    MoreRetryOk(t, out, ref);
    MoreRetryOwn(t, out, ref);
    RemoveThreadsOk(m, i);
    RemoveOuts(m, i);
    assert RouteOk(lim, t, out) && HasThread(t, out);
    forall o | o in t.routes ensures RouteOk(lim, u, o) {
      assert RouteOk(lim, t, o);
      if o != out {
        MoreRetryOthers(t, out, ref, o);
        SameOuts(t, m, o);
      }
    }
  }

  lemma {:induction false} FireOk(lim: Limits, t: Task, k: nat)
    requires TaskOk(lim, t) && k < |t.retries| && !HasThread(t, t.retries[k].out)
    requires Count(t, t.retries[k].out) == t.retries[k].attempts
    ensures TaskOk(lim, AddThread(t, t.retries[k].out))
  {
    var out := t.retries[k].out;
    var u := AddThread(t, out);
    FirstRetry(t.retries, out, k);
    assert RouteOk(lim, t, out);
    assert u.threads[|t.threads|].out == out;
    forall o | o in t.routes ensures RouteOk(lim, u, o) {
      assert RouteOk(lim, t, o);
      AddOuts(t, out, o);
    }
  }

  lemma {:induction false} AddOuts(t: Task, out: nat, o: nat)
    ensures HasThread(AddThread(t, out), o) <==> HasThread(t, o) || o == out
    ensures Count(AddThread(t, out), o) == Count(t, o) + if o == out then 1 else 0
  {
    var u := AddThread(t, out);
    assert u.threads[|t.threads|].out == out;
    if HasThread(t, o) {
      var j :| 0 <= j < |t.threads| && t.threads[j].out == o;
      assert u.threads[j].out == o;
    }
  }
}
