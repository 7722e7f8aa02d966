/**
 The word an output thread writes on the engine channel
 (include/fluent-bit/flb_task.h, include/fluent-bit/flb_bits.h): an event type in the
 high half, and 4 bits of result, 14 bits of task and 14 bits of thread in the low half.
 Shifts and masks are written on naturals, the bitwise or bit by bit.
 */
module TaskWord {
  import opened Bits

  const ENGINE_TASK := 2
  const SLOTS := 2048      // entries of tasks_map
  const THREADS := 0x4000  // thread ids that fit the word

  /** `FLB_TASK_SET`, cut to 32 bits. */
  function TaskSet(ret: nat, task: nat, thread: nat): (w: nat) {
    BitOr(BitOr(ret * 0x1000_0000, task * 0x4000), thread) % 0x1_0000_0000
  }

  function TaskRet(w: nat): (ret: nat) { w / 0x1000_0000 }

  function TaskId(w: nat): (task: nat) { w % 0x1000_0000 / 0x4000 }

  function TaskTh(w: nat): (thread: nat) { w % 0x4000 }

  datatype Signal = Signal(ret: nat, slot: nat, thread: nat)

  /** What `flb_output_return` writes: `FLB_BITS_U64_SET(2, set)`. */
  function Encode(s: Signal): (v: nat) {
    BitOr(ENGINE_TASK * 0x1_0000_0000, TaskSet(s.ret, s.slot, s.thread))
  }

  function EventType(v: nat): (t: nat) { v / 0x1_0000_0000 }

  /** What `flb_engine_manager` reads back from the low half. */
  function Decode(v: nat): (s: Signal) {
    var w := v % 0x1_0000_0000;
    Signal(TaskRet(w), TaskId(w), TaskTh(w))
  }

  lemma Powers()
    ensures Pow2(14) == 0x4000 && Pow2(28) == 0x1000_0000 && Pow2(32) == 0x1_0000_0000
  {
    assert Pow2(7) == 128 && Pow2(14) == 0x4000;
    assert Pow2(21) == 0x20_0000 && Pow2(28) == 0x1000_0000 && Pow2(32) == 0x1_0000_0000;
  }

  lemma {:induction false} HighFields(ret: nat, slot: nat)
    requires slot < SLOTS
    ensures BitOr(ret * 0x1000_0000, slot * 0x4000) == (ret * 0x4000 + slot) * 0x4000
  {
    Powers();
    OrDisjoint(ret, 28, slot * 0x4000);
  }

  lemma {:induction false} LowField(high: nat, thread: nat)
    requires thread < THREADS
    ensures BitOr(high * 0x4000, thread) == high * 0x4000 + thread
  {
    Powers();
    OrDisjoint(high, 14, thread);
  }

  lemma {:induction false} TaskSetAdds(ret: nat, slot: nat, thread: nat)
    requires ret < 16 && slot < SLOTS && thread < THREADS
    ensures TaskSet(ret, slot, thread) == ret * 0x1000_0000 + slot * 0x4000 + thread
  {
    HighFields(ret, slot);
    LowField(ret * 0x4000 + slot, thread);
  }

  lemma {:induction false} HalvesComeBack(w: nat)
    requires w < 0x1_0000_0000
    ensures var v := BitOr(ENGINE_TASK * 0x1_0000_0000, w);
            EventType(v) == ENGINE_TASK && v % 0x1_0000_0000 == w
  {
    Powers();
    OrDisjoint(ENGINE_TASK, 32, w);
  }

  lemma FieldsComeBack(ret: nat, slot: nat, thread: nat)
    requires ret < 16 && slot < SLOTS && thread < THREADS
    ensures var w := ret * 0x1000_0000 + slot * 0x4000 + thread;
            TaskRet(w) == ret && TaskId(w) == slot && TaskTh(w) == thread
  {
  }

  /**
   Result, slot and thread come back from the word exactly when the thread id fits its 14
   bits; the event type always does.
   */
  lemma {:induction false} SignalComesBack(s: Signal)
    requires s.ret < 16 && s.slot < SLOTS
    ensures EventType(Encode(s)) == ENGINE_TASK
    ensures Decode(Encode(s)) == s <==> s.thread < THREADS
  {
    HalvesComeBack(TaskSet(s.ret, s.slot, s.thread));
    if s.thread < THREADS {
      TaskSetAdds(s.ret, s.slot, s.thread);
      FieldsComeBack(s.ret, s.slot, s.thread);
    }
  }
}
