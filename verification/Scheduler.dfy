/**
 The retry scheduler (src/flb_scheduler.c): requests due within a frame are armed
 with a timer of their own, later ones are parked until a frame tick promotes them.
 */
module Scheduler {
  import opened Seqs

  const FRAME := 10  // FLB_SCHED_REQUEST_FRAME

  /** The address of a retry and of the task it belongs to. */
  datatype RetryPtr = RetryPtr(task: nat, id: nat)

  datatype Expiry = Unarmed | At(time: int)

  datatype Request = Request(data: RetryPtr, created: int, timeout: int, timer: nat, expiry: Expiry)

  /** The lists, the timers, the clock, and when the frame timer last ticked. */
  datatype Sched = Sched(
    now: int,
    lastFrame: int,
    requests: seq<Request>,
    waiting: seq<Request>,
    timers: set<nat>,
    nextTimer: nat)

  const FRAME_TIMER := 0

  function Start(now: int): (sc: Sched) { Sched(now, now, [], [], {FRAME_TIMER}, 1) }

  // ---------------------------------------------------------------- operations

  function Arm(q: Request, seconds: int, now: int): (r: Request) { q.(expiry := At(now + seconds)) }

  /** `flb_sched_request_create` with the wait time the backoff chose. */
  function Create(sc: Sched, data: RetryPtr, seconds: nat): (r: Sched) {
    var q := Request(data, sc.now, seconds, sc.nextTimer, Unarmed);
    var s := sc.(timers := sc.timers + {sc.nextTimer}, nextTimer := sc.nextTimer + 1);
    if seconds > FRAME then s.(waiting := s.waiting + [q])
    else s.(requests := s.requests + [Arm(q, seconds, sc.now)])
  }

  /** `flb_sched_request_destroy` of an armed request. */
  function Destroy(sc: Sched, i: nat): (r: Sched)
    requires i < |sc.requests|
  {
    sc.(requests := sc.requests[..i] + sc.requests[i + 1..], timers := sc.timers - {sc.requests[i].timer})
  }

  /** The first armed request for `data`, or the length of the list. */
  function IndexOf(qs: seq<Request>, data: RetryPtr): (i: nat)
    ensures i <= |qs|
    ensures i < |qs| ==> qs[i].data == data
    ensures forall j :: 0 <= j < i ==> qs[j].data != data
  {
    if qs == [] || qs[0].data == data then 0 else 1 + IndexOf(qs[1..], data)
  }

  /** `flb_sched_request_invalidate`: looks among the armed requests only. */
  function Invalidate(sc: Sched, data: RetryPtr): (r: Sched) {
    var i := IndexOf(sc.requests, data);
    if i < |sc.requests| then Destroy(sc, i) else sc
  }

  predicate Due(q: Request, now: int) { now - q.created + FRAME >= q.timeout }

  /** Seconds left when promoted; a request already late is given one more. */
  function Left(q: Request, now: int): (n: int) {
    if now - q.created > q.timeout then 1 else q.timeout - (now - q.created)
  }

  function Promoted(qs: seq<Request>, now: int): (r: seq<Request>)
    ensures |r| <= |qs|
  {
    if qs == [] then []
    else if Due(qs[0], now) then [Arm(qs[0], Left(qs[0], now), now)] + Promoted(qs[1..], now)
    else Promoted(qs[1..], now)
  }

  function Parked(qs: seq<Request>, now: int): (r: seq<Request>)
    ensures |r| <= |qs|
  {
    if qs == [] then []
    else if Due(qs[0], now) then Parked(qs[1..], now)
    else [qs[0]] + Parked(qs[1..], now)
  }

  /** `schedule_request_promote`, on a frame tick. */
  function FrameTick(sc: Sched): (r: Sched) {
    sc.(lastFrame := sc.now,
        requests := sc.requests + Promoted(sc.waiting, sc.now),
        waiting := Parked(sc.waiting, sc.now))
  }

  // ---------------------------------------------------------------- ownership

  predicate DistinctTimers(qs: seq<Request>) {
    forall i, j :: 0 <= i < j < |qs| ==> qs[i].timer != qs[j].timer
  }

  function TimersOf(qs: seq<Request>): (s: set<nat>) { set q | q in qs :: q.timer }

  predicate ArmedOk(q: Request, next: nat) {
    0 < q.timer < next && q.expiry.At? && q.expiry.time >= q.created + q.timeout
  }

  predicate WaitingOk(q: Request, next: nat) { 0 < q.timer < next && q.expiry.Unarmed? && q.timeout > FRAME }

  /**
   Every request is in one list, armed in one and not in the other, with a timer of its own;
   the timers are exactly those and the frame timer; none is set to go off early.
   */
  predicate Owned(sc: Sched) {
    && 0 < sc.nextTimer
    && (forall i :: 0 <= i < |sc.requests| ==> ArmedOk(sc.requests[i], sc.nextTimer))
    && (forall i :: 0 <= i < |sc.waiting| ==> WaitingOk(sc.waiting[i], sc.nextTimer))
    && DistinctTimers(sc.requests) && DistinctTimers(sc.waiting)
    && TimersOf(sc.requests) !! TimersOf(sc.waiting)
    && sc.timers == {FRAME_TIMER} + TimersOf(sc.requests) + TimersOf(sc.waiting)
  }

  lemma InTimers(qs: seq<Request>, i: nat)
    requires i < |qs|
    ensures qs[i].timer in TimersOf(qs)
  {
    assert qs[i] in qs;
  }

  lemma TimersOfConcat(a: seq<Request>, b: seq<Request>)
    ensures TimersOf(a + b) == TimersOf(a) + TimersOf(b)
  {
    forall t | t in TimersOf(a) + TimersOf(b) ensures t in TimersOf(a + b) {
      if t in TimersOf(a) {
        var q :| q in a && q.timer == t;
        assert q in a + b;
      } else {
        var q :| q in b && q.timer == t;
        assert q in a + b;
      }
    }
  }

  lemma CreateKeepsOwned(sc: Sched, data: RetryPtr, seconds: nat)
    requires Owned(sc)
    ensures Owned(Create(sc, data, seconds))
  {
    var q := Request(data, sc.now, seconds, sc.nextTimer, Unarmed);
    var a := Arm(q, seconds, sc.now);
    TimersOfConcat(sc.requests, [a]);
    TimersOfConcat(sc.waiting, [q]);
    assert TimersOf([a]) == {sc.nextTimer} by { assert a in [a]; }
    assert TimersOf([q]) == {sc.nextTimer} by { assert q in [q]; }
  }

  lemma TimersWithout(qs: seq<Request>, i: nat)
    requires i < |qs| && DistinctTimers(qs)
    ensures TimersOf(qs[..i] + qs[i + 1..]) == TimersOf(qs) - {qs[i].timer}
  {
    var rest := qs[..i] + qs[i + 1..];
    forall t | t in TimersOf(qs) - {qs[i].timer} ensures t in TimersOf(rest) {
      var j :| 0 <= j < |qs| && qs[j].timer == t;
      assert rest[if j < i then j else j - 1] == qs[j];
      assert qs[j] in rest;
    }
    forall t | t in TimersOf(rest) ensures t in TimersOf(qs) - {qs[i].timer} {
      var j :| 0 <= j < |rest| && rest[j].timer == t;
      assert rest[j] == qs[if j < i then j else j + 1];
    }
  }

  lemma DestroyKeepsOwned(sc: Sched, i: nat)
    requires Owned(sc) && i < |sc.requests|
    ensures Owned(Destroy(sc, i))
  {
    TimersWithout(sc.requests, i);
    InTimers(sc.requests, i);
  }

  lemma {:induction false} PromotionSplits(qs: seq<Request>, now: int, next: nat)
    requires forall i :: 0 <= i < |qs| ==> WaitingOk(qs[i], next)
    requires DistinctTimers(qs)
    ensures forall i :: 0 <= i < |Promoted(qs, now)| ==> ArmedOk(Promoted(qs, now)[i], next)
    ensures forall i :: 0 <= i < |Parked(qs, now)| ==> WaitingOk(Parked(qs, now)[i], next)
    ensures DistinctTimers(Promoted(qs, now)) && DistinctTimers(Parked(qs, now))
    ensures TimersOf(Promoted(qs, now)) !! TimersOf(Parked(qs, now))
    ensures TimersOf(Promoted(qs, now)) + TimersOf(Parked(qs, now)) == TimersOf(qs)
    decreases |qs|
  {
    if qs != [] {
      var h, t := qs[0], qs[1..];
      PromotionSplits(t, now, next);
      assert h.timer !in TimersOf(t);
      assert qs == [h] + t;
      TimersOfConcat([h], t);
      assert TimersOf([h]) == {h.timer} by { assert h in [h]; }
      var p, k := Promoted(t, now), Parked(t, now);
      if Due(h, now) {
        var a := Arm(h, Left(h, now), now);
        TimersOfConcat([a], p);
        assert TimersOf([a]) == {h.timer} by { assert a in [a]; }
        FrontIsNew(a, p);
      } else {
        TimersOfConcat([h], k);
        FrontIsNew(h, k);
      }
    }
  }

  lemma FrontIsNew(q: Request, qs: seq<Request>)
    requires DistinctTimers(qs) && q.timer !in TimersOf(qs)
    ensures DistinctTimers([q] + qs)
  {
    forall j | 0 <= j < |qs| ensures qs[j].timer != q.timer {
      InTimers(qs, j);
    }
  }

  lemma FrameKeepsOwned(sc: Sched)
    requires Owned(sc)
    ensures Owned(FrameTick(sc))
  {
    var p := Promoted(sc.waiting, sc.now);
    PromotionSplits(sc.waiting, sc.now, sc.nextTimer);
    TimersOfConcat(sc.requests, p);
    forall i, j | 0 <= i < |sc.requests| && 0 <= j < |p| ensures sc.requests[i].timer != p[j].timer {
      InTimers(sc.requests, i);
      InTimers(p, j);
    }
  }

  // ---------------------------------------------------------------- runs

  datatype Step =
    | Ask(data: RetryPtr, seconds: nat)
    | Drop(data: RetryPtr)
    | Fire(i: nat)
    | Frame
    | Tick

  /** A timer can only go off once it has expired. */
  predicate Enabled(sc: Sched, step: Step) {
    step.Fire? ==> step.i < |sc.requests| && sc.requests[step.i].expiry.At? &&
                   sc.requests[step.i].expiry.time <= sc.now
  }

  function Apply(sc: Sched, step: Step): (r: Sched)
    requires Enabled(sc, step)
  {
    match step
    case Ask(data, seconds) => Create(sc, data, seconds)
    case Drop(data) => Invalidate(sc, data)
    case Fire(i) => Destroy(sc, i)
    case Frame => FrameTick(sc)
    case Tick => sc.(now := sc.now + 1)
  }

  lemma ApplyKeepsOwned(sc: Sched, step: Step)
    requires Owned(sc) && Enabled(sc, step)
    ensures Owned(Apply(sc, step))
  {
    match step
    case Ask(data, seconds) => CreateKeepsOwned(sc, data, seconds);
    case Drop(data) =>
      if IndexOf(sc.requests, data) < |sc.requests| {
        DestroyKeepsOwned(sc, IndexOf(sc.requests, data));
      }
    case Fire(i) => DestroyKeepsOwned(sc, i);
    case Frame => FrameKeepsOwned(sc);
    case Tick =>
  }

  /** The clock does not run past an expired timer, nor more than a frame past a frame tick. */
  predicate Disciplined(sc: Sched, step: Step) {
    step.Tick? ==>
      && sc.now < sc.lastFrame + FRAME
      && forall i :: 0 <= i < |sc.requests| ==> sc.requests[i].expiry.At? && sc.requests[i].expiry.time > sc.now
  }

  predicate ArmedExactly(q: Request, now: int) {
    q.expiry == At(q.created + q.timeout) && now <= q.created + q.timeout
  }

  /** A parked request was, at the last frame tick, more than a frame away. */
  predicate WaitsInTime(q: Request, now: int, lastFrame: int) {
    q.created <= now && FRAME < q.timeout && (q.created <= lastFrame ==> lastFrame + FRAME < q.created + q.timeout)
  }

  predicate OnTime(sc: Sched) {
    && sc.lastFrame <= sc.now <= sc.lastFrame + FRAME
    && (forall i :: 0 <= i < |sc.requests| ==> ArmedExactly(sc.requests[i], sc.now))
    && (forall i :: 0 <= i < |sc.waiting| ==> WaitsInTime(sc.waiting[i], sc.now, sc.lastFrame))
  }

  lemma {:induction false} PromotionOnTime(qs: seq<Request>, now: int, lastFrame: int)
    requires lastFrame <= now <= lastFrame + FRAME
    requires forall i :: 0 <= i < |qs| ==> WaitsInTime(qs[i], now, lastFrame)
    ensures forall i :: 0 <= i < |Promoted(qs, now)| ==> ArmedExactly(Promoted(qs, now)[i], now)
    ensures forall i :: 0 <= i < |Parked(qs, now)| ==> WaitsInTime(Parked(qs, now)[i], now, now)
    decreases |qs|
  {
    if qs != [] {
      assert WaitsInTime(qs[0], now, lastFrame);
      PromotionOnTime(qs[1..], now, lastFrame);
    }
  }

  lemma ApplyKeepsOnTime(sc: Sched, step: Step)
    requires OnTime(sc) && Enabled(sc, step) && Disciplined(sc, step)
    ensures OnTime(Apply(sc, step))
  {
    match step
    case Frame => PromotionOnTime(sc.waiting, sc.now, sc.lastFrame);
    case Tick =>
      forall i | 0 <= i < |sc.requests| ensures ArmedExactly(sc.requests[i], sc.now + 1) {
        assert sc.requests[i].expiry.time > sc.now;
      }
      forall i | 0 <= i < |sc.waiting| ensures WaitsInTime(sc.waiting[i], sc.now + 1, sc.lastFrame) {
        assert WaitsInTime(sc.waiting[i], sc.now, sc.lastFrame);
      }
    case _ =>
  }

  predicate IsRun(ss: seq<Sched>, steps: seq<Step>) {
    && |ss| == |steps| + 1
    && ss[0] == Start(ss[0].now)
    && forall i :: 0 <= i < |steps| ==> Enabled(ss[i], steps[i]) && ss[i + 1] == Apply(ss[i], steps[i])
  }

  lemma {:induction false} OwnedAlways(ss: seq<Sched>, steps: seq<Step>, n: nat)
    requires IsRun(ss, steps) && n <= |steps|
    ensures Owned(ss[n])
    decreases n
  {
    if n > 0 {
      OwnedAlways(ss, steps, n - 1);
      ApplyKeepsOwned(ss[n - 1], steps[n - 1]);
    }
  }

  lemma {:induction false} OnTimeAlways(ss: seq<Sched>, steps: seq<Step>, n: nat)
    requires IsRun(ss, steps) && n <= |steps|
    requires forall i :: 0 <= i < n ==> Disciplined(ss[i], steps[i])
    ensures OnTime(ss[n])
    decreases n
  {
    if n > 0 {
      OnTimeAlways(ss, steps, n - 1);
      ApplyKeepsOnTime(ss[n - 1], steps[n - 1]);
    }
  }

  /** Under any pattern of frame ticks no request fires before its time. */
  lemma {:induction false} NeverEarly(ss: seq<Sched>, steps: seq<Step>, n: nat)
    requires IsRun(ss, steps) && n < |steps| && steps[n].Fire?
    ensures var q := ss[n].requests[steps[n].i]; q.created + q.timeout <= ss[n].now
  {
    OwnedAlways(ss, steps, n);
  }

  /**
   With frame ticks at most a frame apart every request fires at exactly its time, and one
   that is still parked is not yet due.
   */
  lemma {:induction false} ExactlyOnTime(ss: seq<Sched>, steps: seq<Step>, n: nat)
    requires IsRun(ss, steps) && n < |steps|
    requires forall i :: 0 <= i < n ==> Disciplined(ss[i], steps[i])
    ensures steps[n].Fire? ==> var q := ss[n].requests[steps[n].i]; q.created + q.timeout == ss[n].now
    ensures forall i :: 0 <= i < |ss[n].waiting| ==>
              ss[n].now < ss[n].waiting[i].created + ss[n].waiting[i].timeout
  {
    OnTimeAlways(ss, steps, n);
    forall i | 0 <= i < |ss[n].waiting|
      ensures ss[n].now < ss[n].waiting[i].created + ss[n].waiting[i].timeout
    {
      assert WaitsInTime(ss[n].waiting[i], ss[n].now, ss[n].lastFrame);
    }
    if steps[n].Fire? {
      assert ArmedExactly(ss[n].requests[steps[n].i], ss[n].now);
    }
  }

  // ---------------------------------------------------------------- when a request is late

  /** The parked request that was promoted. */
  lemma {:induction false} PromotedFrom(qs: seq<Request>, now: int, q: Request) returns (w: Request)
    requires q in Promoted(qs, now)
    ensures w in qs && Due(w, now) && q == Arm(w, Left(w, now), now)
    decreases |qs|
  {
    if Due(qs[0], now) && q == Arm(qs[0], Left(qs[0], now), now) {
      w := qs[0];
    } else {
      w := PromotedFrom(qs[1..], now, q);
    }
  }

  /** The request was parked at step `m`, a frame tick, which promoted it. */
  predicate PromotedAt(ss: seq<Sched>, steps: seq<Step>, m: nat, q: Request)
    requires |ss| == |steps| + 1
  {
    && m < |steps| && steps[m] == Frame
    && q.(expiry := Unarmed) in ss[m].waiting && Due(q, ss[m].now)
    && q.expiry == Arm(q, Left(q, ss[m].now), ss[m].now).expiry
  }

  /** An armed request was armed when it was made, for its time, or promoted by a frame tick. */
  lemma {:induction false} ArmedHow(ss: seq<Sched>, steps: seq<Step>, n: nat, q: Request) returns (m: nat)
    requires IsRun(ss, steps) && n <= |steps| && q in ss[n].requests
    ensures if q.timeout <= FRAME then q.expiry == At(q.created + q.timeout) else m < n && PromotedAt(ss, steps, m, q)
    decreases n
  {
    m := 0;
    if n > 0 {
      var sc, step := ss[n - 1], steps[n - 1];
      if q in sc.requests {
        m := ArmedHow(ss, steps, n - 1, q);
      } else if step.Frame? {
        var w := PromotedFrom(sc.waiting, sc.now, q);
        OwnedAlways(ss, steps, n - 1);
        assert w.expiry == Unarmed && w.timeout > FRAME;
        assert q.(expiry := Unarmed) == w;
        m := n - 1;
      } else if step.Ask? {
        assert q == ss[n].requests[|sc.requests|];
      }
    }
  }

  /**
   Over every run: the timer of a request within a frame is set for exactly its time; that of
   one that was parked is set for exactly its time if and only if the frame tick that promoted
   it did not come after that, and for a second after the tick otherwise.
   */
  lemma {:induction false} ExactlyIfPromotedInTime(ss: seq<Sched>, steps: seq<Step>, n: nat, q: Request)
      returns (m: nat)
    requires IsRun(ss, steps) && n <= |steps| && q in ss[n].requests
    ensures q.timeout <= FRAME ==> q.expiry == At(q.created + q.timeout)
    ensures q.timeout > FRAME ==>
              && m < n && PromotedAt(ss, steps, m, q)
              && (q.expiry == At(q.created + q.timeout) <==> ss[m].now <= q.created + q.timeout)
              && (ss[m].now > q.created + q.timeout ==> q.expiry == At(ss[m].now + 1))
  {
    m := ArmedHow(ss, steps, n, q);
  }

  /** One more step of a run. */
  lemma {:induction false} Extend(ss: seq<Sched>, steps: seq<Step>, step: Step)
    requires IsRun(ss, steps) && Enabled(ss[|steps|], step)
    ensures IsRun(ss + [Apply(ss[|steps|], step)], steps + [step])
  {
    var ss', steps' := ss + [Apply(ss[|steps|], step)], steps + [step];
    forall i | 0 <= i < |steps'| ensures Enabled(ss'[i], steps'[i]) && ss'[i + 1] == Apply(ss'[i], steps'[i]) {
      if i < |steps| {
        assert ss'[i] == ss[i] && ss'[i + 1] == ss[i + 1] && steps'[i] == steps[i];
      }
    }
  }

  lemma {:induction false} Ticks(ss: seq<Sched>, steps: seq<Step>, k: nat) returns (ss': seq<Sched>, steps': seq<Step>)
    requires IsRun(ss, steps)
    ensures IsRun(ss', steps') && ss'[|steps'|] == ss[|steps|].(now := ss[|steps|].now + k)
    decreases k
  {
    if k == 0 {
      ss', steps' := ss, steps;
    } else {
      Extend(ss, steps, Tick);
      ss', steps' := Ticks(ss + [Apply(ss[|steps|], Tick)], steps + [Tick], k - 1);
    }
  }

  /** If the frame ticks stop for 30 seconds a request for 20 seconds fires after 31. */
  lemma {:induction false} LateWithoutFrames(t: int, p: RetryPtr) returns (ss: seq<Sched>, steps: seq<Step>, q: Request)
    ensures IsRun(ss, steps) && |steps| > 0 && steps[|steps| - 1] == Fire(0)
    ensures ss[|steps| - 1].requests == [q] && q.created == t && q.timeout == 20 && ss[|steps| - 1].now == t + 31
    ensures q.expiry == At(t + 31)
  {
    ss, steps := [Start(t)], [];
    Extend(ss, steps, Ask(p, 20));
    var w := Request(p, t, 20, 1, Unarmed);
    var sc := Apply(Start(t), Ask(p, 20));
    assert sc.waiting == [w] && sc.requests == [];
    ss, steps := Ticks([Start(t), sc], [Ask(p, 20)], 30);
    var sc' := ss[|steps|];
    q := Arm(w, 1, t + 30);
    assert Promoted([w], t + 30) == [q] + Promoted([], t + 30) == [q];
    Extend(ss, steps, Frame);
    ss, steps := ss + [Apply(sc', Frame)], steps + [Frame];
    Extend(ss, steps, Tick);
    ss, steps := ss + [Apply(ss[|steps|], Tick)], steps + [Tick];
    Extend(ss, steps, Fire(0));
    ss, steps := ss + [Apply(ss[|steps|], Fire(0))], steps + [Fire(0)];
  }

  // ---------------------------------------------------------------- the scheduler of the source

  /** `flb_sched`; the timers are a bag, so a set of addresses. */
  class SchedulerCtx {
    var now: int
    var lastFrame: int
    var requests: seq<Request>
    var waiting: seq<Request>
    var timers: set<nat>
    var nextTimer: nat

    ghost function View(): (sc: Sched)
      reads this
    {
      Sched(now, lastFrame, requests, waiting, timers, nextTimer)
    }

    constructor (t: int)
      ensures View() == Start(t)
    {
      now, lastFrame, requests, waiting, timers, nextTimer := t, t, [], [], {FRAME_TIMER}, 1;
    }

    method TimerCreate() returns (timer: nat)
      modifies this`timers, this`nextTimer
      ensures timer == old(nextTimer) && nextTimer == old(nextTimer) + 1 && timers == old(timers) + {timer}
    {
      timer := nextTimer;
      timers := timers + {timer};
      nextTimer := nextTimer + 1;
    }

    method RequestNow(q: Request, seconds: int)
      modifies this`requests
      ensures requests == old(requests) + [Arm(q, seconds, now)]
    {
      requests := requests + [q.(expiry := At(now + seconds))];
    }

    method RequestCreate(data: RetryPtr, seconds: nat)
      modifies this
      ensures View() == Create(old(View()), data, seconds)
    {
      var timer := TimerCreate();
      var q := Request(data, now, seconds, timer, Unarmed);
      if seconds > FRAME {
        waiting := waiting + [q];
      } else {
        RequestNow(q, seconds);
      }
    }

    method RequestDestroy(i: nat)
      requires i < |requests|
      modifies this`requests, this`timers
      ensures View() == Destroy(old(View()), i)
    {
      var timer := requests[i].timer;
      requests := requests[..i] + requests[i + 1..];
      timers := timers - {timer};
    }

    method RequestInvalidate(data: RetryPtr) returns (found: bool)
      modifies this`requests, this`timers
      ensures View() == Invalidate(old(View()), data)
      ensures found <==> exists i :: 0 <= i < |old(requests)| && old(requests)[i].data == data
    {
      var i := 0;
      while i < |requests|
        invariant i <= |requests| && requests == old(requests) && timers == old(timers)
        invariant IndexOf(requests, data) == i + IndexOf(requests[i..], data)
        invariant forall j :: 0 <= j < i ==> requests[j].data != data
      {
        assert requests[i..][0] == requests[i] && requests[i..][1..] == requests[i + 1..];
        if requests[i].data == data {
          RequestDestroy(i);
          return true;
        }
        i := i + 1;
      }
      return false;
    }

    method Promote()
      modifies this`requests, this`waiting, this`lastFrame
      ensures View() == FrameTick(old(View()))
    {
      var kept: seq<Request> := [];
      var i := 0;
      while i < |waiting|
        invariant i <= |waiting| && waiting == old(waiting) && lastFrame == old(lastFrame)
        invariant requests + Promoted(waiting[i..], now) == old(requests) + Promoted(waiting, now)
        invariant kept + Parked(waiting[i..], now) == Parked(waiting, now)
      {
        var q, rest := waiting[i], waiting[i..];
        assert rest[0] == q && rest[1..] == waiting[i + 1..];
        var passed := now - q.created;
        Reassociate(requests, [Arm(q, Left(q, now), now)], Promoted(rest[1..], now));
        if passed > q.timeout {
          RequestNow(q, 1);
        } else if passed + FRAME >= q.timeout {
          var next := if passed - q.timeout < 0 then q.timeout - passed else passed - q.timeout;
          RequestNow(q, next);
        } else {
          kept := kept + [q];
        }
        i := i + 1;
      }
      assert waiting[i..] == [];
      waiting := kept;
      lastFrame := now;
    }
  }
}
