/**
 Input buffers (src/flb_input.c, include/fluent-bit/flb_input.h, src/flb_filter.c,
 src/flb_engine_dispatch.c): records are collected per tag, filtered as they arrive, handed
 to tasks by a flush, and refused while the input holds too much.
 */
module Input {
  import opened Wrappers
  import Router

  type Bytes = seq<bv8>

  /** A filter; None stands for "not modified". */
  datatype Filter = Filter(pattern: string, cb: (Bytes, string) -> Option<Bytes>)

  /** A dynamic tag node; `tasked` while a task holds it. */
  datatype Node = Node(tag: string, busy: bool, lock: bool, buf: Bytes, tasked: bool)

  datatype Call = Pause | Resume

  /**
   An input instance.  `calls` logs the changes of its status, `accepted` and `handed` what it
   took in and gave out per tag, and `last` the size of what it took in last.
   */
  datatype State = State(
    limit: int,
    live: bool,
    own: Bytes,
    nodes: seq<Node>,
    total: nat,
    paused: bool,
    calls: seq<Call>,
    accepted: map<string, Bytes>,
    handed: map<string, Bytes>,
    last: nat)

  function Init(limit: int): (s: State) { State(limit, true, [], [], 0, false, [], map[], map[], 0) }

  function Of(m: map<string, Bytes>, tag: string): (b: Bytes) { if tag in m then m[tag] else [] }

  const LOCK_SIZE := 2048000

  // ---------------------------------------------------------------- sizes and backpressure

  function Sum(nodes: seq<Node>): (n: nat) { if nodes == [] then 0 else |nodes[0].buf| + Sum(nodes[1..]) }

  /** The bytes the input holds. */
  function Held(s: State): (n: nat) { Sum(s.nodes) + |s.own| }

  predicate Overlimit(s: State) { s.limit > 0 && s.total >= s.limit }

  /** `flb_input_buf_size_set`. */
  function SizeSet(s: State): (r: State) {
    var t := s.(total := Held(s));
    if !Overlimit(t) && t.paused && t.live then t.(paused := false, calls := t.calls + [Resume]) else t
  }

  /** `flb_input_buf_check`. */
  function Check(s: State): (r: State) {
    if Overlimit(s) then s.(paused := true, calls := s.calls + if s.paused then [] else [Pause]) else s
  }

  // ---------------------------------------------------------------- filters

  /** `flb_filter_do` on the new bytes: the matching filters one after the other. */
  ghost function Filtered(fs: seq<Filter>, tag: string, data: Bytes): (r: Bytes) {
    if fs == [] then data
    else if Router.Matches(tag, fs[0].pattern) && fs[0].cb(data, tag).Some? then
      Filtered(fs[1..], tag, fs[0].cb(data, tag).value)
    else Filtered(fs[1..], tag, data)
  }

  // ---------------------------------------------------------------- appending

  predicate Open(n: Node, tag: string) { !n.busy && !n.lock && n.tag == tag }

  /** `flb_input_dyntag_get`: the first node that may take data for the tag, or the end of the list. */
  function FirstOpen(nodes: seq<Node>, tag: string): (i: nat)
    ensures i <= |nodes|
    ensures i < |nodes| ==> Open(nodes[i], tag)
    ensures forall j :: 0 <= j < i ==> !Open(nodes[j], tag)
  {
    if nodes == [] || Open(nodes[0], tag) then 0 else 1 + FirstOpen(nodes[1..], tag)
  }

  /** ... where a new node is added. */
  function WithNode(s: State, tag: string): (r: State)
    ensures FirstOpen(s.nodes, tag) < |r.nodes| && r.nodes[FirstOpen(s.nodes, tag)].tag == tag
  {
    if FirstOpen(s.nodes, tag) < |s.nodes| then s
    else s.(nodes := s.nodes + [Node(tag, false, false, [], false)])
  }

  /** The new bytes are kept, filtered, and counted. */
  function Keep(s: State, i: nat, more: Bytes): (r: State)
    requires i < |s.nodes|
  {
    var n := s.nodes[i];
    Check(SizeSet(s.(nodes := s.nodes[i := n.(buf := n.buf + more)],
                     accepted := s.accepted[n.tag := Of(s.accepted, n.tag) + more],
                     last := |more|)))
  }

  function LockFull(s: State, i: nat): (r: State)
    requires i < |s.nodes|
  {
    if |s.nodes[i].buf| > LOCK_SIZE then s.(nodes := s.nodes[i := s.nodes[i].(lock := true)]) else s
  }

  /** `flb_input_dyntag_append_raw`. */
  ghost function Append(fs: seq<Filter>, s: State, tag: string, data: Bytes): (r: State) {
    if tag == [] then s
    else
      var i, t := FirstOpen(s.nodes, tag), WithNode(s, tag);
      LockFull(if data == [] || s.paused then t else Keep(t, i, Filtered(fs, tag, data)), i)
  }

  /** `flb_input_buf_write_start`, a write of `data`, and `flb_input_buf_write_end`. */
  ghost function Write(fs: seq<Filter>, s: State, tag: string, data: Bytes): (r: State) {
    if data == [] || s.paused then s
    else
      var more := Filtered(fs, tag, data);
      Check(SizeSet(s.(own := s.own + more, last := |more|)))
  }

  // ---------------------------------------------------------------- flushing

  /** What becomes of a buffer handed to `flb_task_create`. */
  datatype Outcome = Kept | NoRoutes | NoSlot

  /** `flb_input_dyntag_flush`. */
  function Flush(s: State, i: nat, tasked: bool): (r: State)
    requires i < |s.nodes|
  {
    var n := s.nodes[i];
    s.(nodes := s.nodes[i := n.(lock := false, busy := true, buf := [], tasked := tasked && n.buf != [])],
       handed := s.handed[n.tag := Of(s.handed, n.tag) + n.buf])
  }

  /** The end of a task that holds node `i`. */
  function Drop(s: State, i: nat): (r: State)
    requires i < |s.nodes|
  {
    SizeSet(s.(nodes := s.nodes[..i] + s.nodes[i + 1..]))
  }

  /** The loop of `flb_engine_dispatch` from node `i` on. */
  function DispatchFrom(s: State, i: nat, outcomes: seq<Outcome>): (r: State)
    requires i + |outcomes| == |s.nodes|
    decreases |outcomes|
  {
    if outcomes == [] then s
    else if s.nodes[i].busy then DispatchFrom(s, i + 1, outcomes[1..])
    else
      var t := Flush(s, i, outcomes[0].Kept?);
      if s.nodes[i].buf != [] && outcomes[0].NoRoutes? then DispatchFrom(Drop(t, i), i, outcomes[1..])
      else DispatchFrom(t, i + 1, outcomes[1..])
  }

  function Dispatch(s: State, outcomes: seq<Outcome>): (r: State)
    requires |outcomes| == |s.nodes|
  {
    DispatchFrom(s, 0, outcomes)
  }

  // ---------------------------------------------------------------- conservation and order

  /** The data of the tag in list order. */
  function Pending(nodes: seq<Node>, tag: string): (b: Bytes) {
    if nodes == [] then [] else (if nodes[0].tag == tag then nodes[0].buf else []) + Pending(nodes[1..], tag)
  }

  /** Of the nodes of a tag that may still be flushed all but the last are locked. */
  predicate Ordered(nodes: seq<Node>) {
    forall i, j :: 0 <= i < j < |nodes| && !nodes[i].busy && !nodes[j].busy && nodes[i].tag == nodes[j].tag ==>
      nodes[i].lock
  }

  predicate BusyEmpty(nodes: seq<Node>) { forall i :: 0 <= i < |nodes| && nodes[i].busy ==> nodes[i].buf == [] }

  /** For every tag: given out, followed by what is still held, is what was taken in. */
  ghost predicate Conserved(s: State) {
    forall tag :: Of(s.accepted, tag) == Of(s.handed, tag) + Pending(s.nodes, tag)
  }

  ghost predicate DataInv(s: State) { Ordered(s.nodes) && BusyEmpty(s.nodes) && Conserved(s) }

  lemma {:induction false} PendingSplit(a: seq<Node>, b: seq<Node>, tag: string)
    ensures Pending(a + b, tag) == Pending(a, tag) + Pending(b, tag)
    decreases |a|
  {
    if a == [] {
      assert a + b == b;
    } else {
      PendingSplit(a[1..], b, tag);
      assert (a + b)[1..] == a[1..] + b;
      Assoc(if a[0].tag == tag then a[0].buf else [], Pending(a[1..], tag), Pending(b, tag));
    }
  }

  lemma Assoc(x: Bytes, y: Bytes, z: Bytes)
    ensures x + (y + z) == x + y + z
  {
  }

  lemma {:induction false} PendingAt(nodes: seq<Node>, i: nat, tag: string)
    requires i < |nodes|
    ensures Pending(nodes, tag) ==
            Pending(nodes[..i], tag) + (if nodes[i].tag == tag then nodes[i].buf else []) + Pending(nodes[i + 1..], tag)
  {
    assert nodes == nodes[..i] + nodes[i..];
    PendingSplit(nodes[..i], nodes[i..], tag);
    assert nodes[i..][1..] == nodes[i + 1..];
  }

  lemma {:induction false} PendingNone(nodes: seq<Node>, tag: string)
    requires forall j :: 0 <= j < |nodes| && nodes[j].tag == tag ==> nodes[j].buf == []
    ensures Pending(nodes, tag) == []
    decreases |nodes|
  {
    if nodes != [] {
      PendingNone(nodes[1..], tag);
    }
  }

  /** Replacing one node. */
  lemma {:induction false} PendingUpdate(nodes: seq<Node>, i: nat, n: Node, tag: string)
    requires i < |nodes| && n.tag == nodes[i].tag
    ensures tag != n.tag || n.buf == nodes[i].buf ==> Pending(nodes[i := n], tag) == Pending(nodes, tag)
    ensures Pending(nodes[i := n], tag) ==
            Pending(nodes[..i], tag) + (if n.tag == tag then n.buf else []) + Pending(nodes[i + 1..], tag)
  {
    PendingAt(nodes, i, tag);
    PendingAt(nodes[i := n], i, tag);
    assert nodes[i := n][..i] == nodes[..i] && nodes[i := n][i + 1..] == nodes[i + 1..];
  }

  /** The node that takes data is the last of its tag that holds any. */
  lemma {:induction false} OpenIsLast(nodes: seq<Node>, i: nat, tag: string)
    requires Ordered(nodes) && BusyEmpty(nodes) && i < |nodes| && Open(nodes[i], tag)
    ensures Pending(nodes[i + 1..], tag) == []
  {
    var rest := nodes[i + 1..];
    forall j | 0 <= j < |rest| && rest[j].tag == tag ensures rest[j].buf == [] {
      assert rest[j] == nodes[i + 1 + j];
    }
    PendingNone(rest, tag);
  }

  /** A new node holds nothing. */
  lemma {:induction false} WithNodeSame(s: State, tag: string)
    ensures forall t :: Pending(WithNode(s, tag).nodes, t) == Pending(s.nodes, t)
    ensures Sum(WithNode(s, tag).nodes) == Sum(s.nodes)
    ensures WithNode(s, tag) == s.(nodes := WithNode(s, tag).nodes)
  {
    var n := Node(tag, false, false, [], false);
    if FirstOpen(s.nodes, tag) == |s.nodes| {
      forall t ensures Pending(s.nodes + [n], t) == Pending(s.nodes, t) {
        PendingSplit(s.nodes, [n], t);
        assert Pending([n], t) == [];
      }
      SumSplit(s.nodes, [n]);
    }
  }

  lemma {:induction false} WithNodeKeeps(s: State, tag: string)
    requires DataInv(s)
    ensures DataInv(WithNode(s, tag)) && Open(WithNode(s, tag).nodes[FirstOpen(s.nodes, tag)], tag)
  {
    WithNodeSame(s, tag);
    if FirstOpen(s.nodes, tag) == |s.nodes| {
      NewIsOrdered(s.nodes, Node(tag, false, false, [], false));
    }
  }

  lemma {:induction false} NewIsOrdered(nodes: seq<Node>, n: Node)
    requires Ordered(nodes) && forall j :: 0 <= j < |nodes| ==> !Open(nodes[j], n.tag)
    ensures Ordered(nodes + [n])
  {
  }

  lemma {:induction false} SumSplit(a: seq<Node>, b: seq<Node>)
    ensures Sum(a + b) == Sum(a) + Sum(b)
    decreases |a|
  {
    if a == [] {
      assert a + b == b;
    } else {
      SumSplit(a[1..], b);
      assert (a + b)[1..] == a[1..] + b;
    }
  }

  lemma {:induction false} SumUpdate(nodes: seq<Node>, i: nat, n: Node)
    requires i < |nodes|
    ensures Sum(nodes[i := n]) == Sum(nodes) - |nodes[i].buf| + |n.buf|
  {
    SumSplit(nodes[..i], nodes[i..]);
    SumSplit(nodes[..i], [n] + nodes[i + 1..]);
    assert nodes == nodes[..i] + nodes[i..] && nodes[i..][1..] == nodes[i + 1..];
    assert nodes[i := n] == nodes[..i] + ([n] + nodes[i + 1..]);
    assert ([n] + nodes[i + 1..])[1..] == nodes[i + 1..];
  }

  /** The data an append adds comes after everything of its tag. */
  lemma {:induction false} KeepKeeps(s: State, i: nat, more: Bytes)
    requires DataInv(s) && i < |s.nodes| && Open(s.nodes[i], s.nodes[i].tag)
    ensures DataInv(Keep(s, i, more))
  {
    var n, s' := s.nodes[i], Keep(s, i, more);
    OpenIsLast(s.nodes, i, n.tag);
    forall t ensures Of(s'.accepted, t) == Of(s'.handed, t) + Pending(s'.nodes, t) {
      PendingUpdate(s.nodes, i, n.(buf := n.buf + more), t);
      PendingAt(s.nodes, i, t);
      if t == n.tag {
        Regroup(Of(s.handed, t), Pending(s.nodes[..i], t), n.buf, more);
      }
    }
  }

  lemma Regroup(h: Bytes, p: Bytes, b: Bytes, more: Bytes)
    ensures h + (p + (b + more) + []) == h + (p + b + []) + more
  {
  }

  lemma {:induction false} LockKeeps(s: State, i: nat)
    requires DataInv(s) && i < |s.nodes|
    ensures DataInv(LockFull(s, i))
  {
    var n := s.nodes[i].(lock := true);
    forall t ensures Pending(s.nodes[i := n], t) == Pending(s.nodes, t) {
      PendingUpdate(s.nodes, i, n, t);
    }
  }

  lemma {:induction false} AppendKeeps(fs: seq<Filter>, s: State, tag: string, data: Bytes)
    requires DataInv(s)
    ensures DataInv(Append(fs, s, tag, data))
  {
    if tag != [] {
      var i, t := FirstOpen(s.nodes, tag), WithNode(s, tag);
      WithNodeKeeps(s, tag);
      if data == [] || s.paused {
        LockKeeps(t, i);
      } else {
        KeepKeeps(t, i, Filtered(fs, tag, data));
        LockKeeps(Keep(t, i, Filtered(fs, tag, data)), i);
      }
    }
  }

  /** A flush takes the first data of the tag when everything before it is busy. */
  lemma {:induction false} FlushKeeps(s: State, i: nat, tasked: bool)
    requires DataInv(s) && i < |s.nodes| && forall j :: 0 <= j < i ==> s.nodes[j].busy
    ensures DataInv(Flush(s, i, tasked))
  {
    var n, s' := s.nodes[i], Flush(s, i, tasked);
    forall t ensures Of(s'.accepted, t) == Of(s'.handed, t) + Pending(s'.nodes, t) {
      PendingUpdate(s.nodes, i, s'.nodes[i], t);
      PendingAt(s.nodes, i, t);
      PendingNone(s.nodes[..i], t);
      if t == n.tag {
        Regroup2(Of(s.handed, t), n.buf, Pending(s.nodes[i + 1..], t));
      }
    }
  }

  lemma Regroup2(h: Bytes, b: Bytes, rest: Bytes)
    ensures h + b + ([] + [] + rest) == h + ([] + b + rest)
  {
  }

  lemma {:induction false} DropKeeps(s: State, i: nat)
    requires DataInv(s) && i < |s.nodes| && s.nodes[i].busy
    ensures DataInv(Drop(s, i))
  {
    var nodes := s.nodes[..i] + s.nodes[i + 1..];
    forall t ensures Pending(nodes, t) == Pending(s.nodes, t) {
      PendingAt(s.nodes, i, t);
      PendingSplit(s.nodes[..i], s.nodes[i + 1..], t);
    }
  }

  lemma {:induction false} DispatchKeeps(s: State, i: nat, outcomes: seq<Outcome>)
    requires DataInv(s) && i + |outcomes| == |s.nodes| && forall j :: 0 <= j < i ==> s.nodes[j].busy
    ensures DataInv(DispatchFrom(s, i, outcomes))
    decreases |outcomes|
  {
    if outcomes != [] {
      if s.nodes[i].busy {
        DispatchKeeps(s, i + 1, outcomes[1..]);
      } else {
        FlushKeeps(s, i, outcomes[0].Kept?);
        var t := Flush(s, i, outcomes[0].Kept?);
        if s.nodes[i].buf != [] && outcomes[0].NoRoutes? {
          DropKeeps(t, i);
          DispatchKeeps(Drop(t, i), i, outcomes[1..]);
        } else {
          DispatchKeeps(t, i + 1, outcomes[1..]);
        }
      }
    }
  }

  lemma {:induction false} DispatchTakesAll(s: State, i: nat, outcomes: seq<Outcome>)
    requires i + |outcomes| == |s.nodes| && forall j :: 0 <= j < i ==> s.nodes[j].busy
    ensures forall j :: 0 <= j < |DispatchFrom(s, i, outcomes).nodes| ==> DispatchFrom(s, i, outcomes).nodes[j].busy
    decreases |outcomes|
  {
    if outcomes != [] {
      if s.nodes[i].busy {
        DispatchTakesAll(s, i + 1, outcomes[1..]);
      } else {
        var t := Flush(s, i, outcomes[0].Kept?);
        if s.nodes[i].buf != [] && outcomes[0].NoRoutes? {
          DispatchTakesAll(Drop(t, i), i, outcomes[1..]);
        } else {
          DispatchTakesAll(t, i + 1, outcomes[1..]);
        }
      }
    }
  }

  /** After a flush everything taken in has been given out, in order. */
  lemma {:induction false} FlushGivesAll(s: State, outcomes: seq<Outcome>, tag: string)
    requires DataInv(s) && |outcomes| == |s.nodes|
    ensures Of(Dispatch(s, outcomes).handed, tag) == Of(Dispatch(s, outcomes).accepted, tag)
  {
    DispatchKeeps(s, 0, outcomes);
    DispatchTakesAll(s, 0, outcomes);
    PendingNone(Dispatch(s, outcomes).nodes, tag);
  }

  // ---------------------------------------------------------------- backpressure

  /** Pause and resume alternate, and the status follows the last of them. */
  predicate Alternating(s: State) {
    && (forall k :: 0 <= k < |s.calls| ==> s.calls[k] == if k % 2 == 0 then Pause else Resume)
    && (s.paused <==> |s.calls| % 2 == 1)
  }

  /** The counter is never too low; below the limit while running; over it by less than the last append. */
  predicate Bounded(s: State) {
    && s.total >= Held(s)
    && (s.limit > 0 && !s.paused ==> s.total < s.limit)
    && (s.limit > 0 ==> s.total < s.limit + s.last)
    && (s.limit <= 0 ==> !s.paused)
  }

  predicate FlowInv(s: State) { Alternating(s) && Bounded(s) }

  /** Recounting when less is held than before. */
  lemma {:induction false} SizeSetKeeps(s: State)
    requires FlowInv(s)
    ensures FlowInv(SizeSet(s))
  {
  }

  /** Counting what a running input has just taken in. */
  lemma {:induction false} CountKeeps(s: State, s': State, n: nat)
    requires FlowInv(s) && !s.paused && Held(s') == Held(s) + n
    requires s'.limit == s.limit && s'.paused == s.paused && s'.calls == s.calls && s'.last == n
    ensures FlowInv(Check(SizeSet(s')))
  {
  }

  lemma {:induction false} KeepFlow(s: State, i: nat, more: Bytes)
    requires FlowInv(s) && i < |s.nodes| && !s.paused
    ensures FlowInv(Keep(s, i, more))
  {
    var n := s.nodes[i].(buf := s.nodes[i].buf + more);
    SumUpdate(s.nodes, i, n);
    CountKeeps(s, s.(nodes := s.nodes[i := n],
                     accepted := s.accepted[n.tag := Of(s.accepted, n.tag) + more], last := |more|), |more|);
  }

  lemma {:induction false} LockFlow(s: State, i: nat)
    requires FlowInv(s) && i < |s.nodes|
    ensures FlowInv(LockFull(s, i)) && Sum(LockFull(s, i).nodes) == Sum(s.nodes)
  {
    SumUpdate(s.nodes, i, s.nodes[i].(lock := true));
  }

  lemma {:induction false} WithNodeFlow(s: State, tag: string)
    requires FlowInv(s)
    ensures FlowInv(WithNode(s, tag))
  {
    WithNodeSame(s, tag);
  }

  lemma {:induction false} AppendFlow(fs: seq<Filter>, s: State, tag: string, data: Bytes)
    requires FlowInv(s)
    ensures FlowInv(Append(fs, s, tag, data))
  {
    if tag != [] {
      var i, t := FirstOpen(s.nodes, tag), WithNode(s, tag);
      WithNodeFlow(s, tag);
      if data == [] || s.paused {
        LockFlow(t, i);
      } else {
        KeepFlow(t, i, Filtered(fs, tag, data));
        LockFlow(Keep(t, i, Filtered(fs, tag, data)), i);
      }
    }
  }

  lemma {:induction false} WriteFlow(fs: seq<Filter>, s: State, tag: string, data: Bytes)
    requires FlowInv(s)
    ensures FlowInv(Write(fs, s, tag, data))
  {
    if data != [] && !s.paused {
      var more := Filtered(fs, tag, data);
      CountKeeps(s, s.(own := s.own + more, last := |more|), |more|);
    }
  }

  lemma {:induction false} FlushFlow(s: State, i: nat, tasked: bool)
    requires FlowInv(s) && i < |s.nodes|
    ensures FlowInv(Flush(s, i, tasked))
  {
    SumUpdate(s.nodes, i, Flush(s, i, tasked).nodes[i]);
  }

  lemma {:induction false} DropFlow(s: State, i: nat)
    requires FlowInv(s) && i < |s.nodes|
    ensures FlowInv(Drop(s, i))
  {
    assert s.nodes == s.nodes[..i] + s.nodes[i..] && s.nodes[i..][1..] == s.nodes[i + 1..];
    SumSplit(s.nodes[..i], s.nodes[i..]);
    SumSplit(s.nodes[..i], s.nodes[i + 1..]);
    SizeSetKeeps(s.(nodes := s.nodes[..i] + s.nodes[i + 1..]));
  }

  lemma {:induction false} DispatchFlow(s: State, i: nat, outcomes: seq<Outcome>)
    requires FlowInv(s) && i + |outcomes| == |s.nodes|
    ensures FlowInv(DispatchFrom(s, i, outcomes))
    decreases |outcomes|
  {
    if outcomes != [] {
      if s.nodes[i].busy {
        DispatchFlow(s, i + 1, outcomes[1..]);
      } else {
        FlushFlow(s, i, outcomes[0].Kept?);
        var t := Flush(s, i, outcomes[0].Kept?);
        if s.nodes[i].buf != [] && outcomes[0].NoRoutes? {
          DropFlow(t, i);
          DispatchFlow(Drop(t, i), i, outcomes[1..]);
        } else {
          DispatchFlow(t, i + 1, outcomes[1..]);
        }
      }
    }
  }

  // ---------------------------------------------------------------- runs

  datatype Step =
    | Appends(tag: string, data: Bytes)   // a record for a dynamic tag
    | Writes(tag: string, data: Bytes)    // records for the tag of the instance
    | Flushes(outcomes: seq<Outcome>)     // the engine flushes the dynamic tags
    | FlushesOwn                          // ... or the buffer of the instance
    | TaskEnds(i: nat)                    // the task that holds node i ends
    | OwnTaskEnds                         // a task of the instance buffer ends
    | Stops                               // the service stops

  predicate Enabled(s: State, step: Step) {
    match step
    case Flushes(outcomes) => |outcomes| == |s.nodes|
    case TaskEnds(i) => i < |s.nodes| && s.nodes[i].busy && s.nodes[i].tasked
    case _ => true
  }

  ghost function Next(fs: seq<Filter>, s: State, step: Step): (r: State)
    requires Enabled(s, step)
  {
    match step
    case Appends(tag, data) => Append(fs, s, tag, data)
    case Writes(tag, data) => Write(fs, s, tag, data)
    case Flushes(outcomes) => Dispatch(s, outcomes)
    case FlushesOwn => s.(own := [])
    case TaskEnds(i) => Drop(s, i)
    case OwnTaskEnds => SizeSet(s)
    case Stops => s.(live := false)
  }

  ghost predicate IsRun(fs: seq<Filter>, limit: int, ss: seq<State>, steps: seq<Step>) {
    && |ss| == |steps| + 1 && ss[0] == Init(limit)
    && forall i :: 0 <= i < |steps| ==> Enabled(ss[i], steps[i]) && ss[i + 1] == Next(fs, ss[i], steps[i])
  }

  lemma {:induction false} NextData(fs: seq<Filter>, s: State, step: Step)
    requires DataInv(s) && Enabled(s, step)
    ensures DataInv(Next(fs, s, step))
  {
    match step
    case Appends(tag, data) => AppendKeeps(fs, s, tag, data);
    case Flushes(outcomes) => DispatchKeeps(s, 0, outcomes);
    case TaskEnds(i) => DropKeeps(s, i);
    case _ =>
  }

  lemma {:induction false} NextFlow(fs: seq<Filter>, s: State, step: Step)
    requires FlowInv(s) && Enabled(s, step)
    ensures FlowInv(Next(fs, s, step))
  {
    match step
    case Appends(tag, data) => AppendFlow(fs, s, tag, data);
    case Writes(tag, data) => WriteFlow(fs, s, tag, data);
    case Flushes(outcomes) => DispatchFlow(s, 0, outcomes);
    case TaskEnds(i) => DropFlow(s, i);
    case OwnTaskEnds => SizeSetKeeps(s);
    case _ =>
  }

  lemma {:induction false} NextLimit(fs: seq<Filter>, s: State, step: Step)
    requires Enabled(s, step)
    ensures Next(fs, s, step).limit == s.limit
  {
    if step.Flushes? {
      DispatchLimit(s, 0, step.outcomes);
    }
  }

  lemma {:induction false} DispatchLimit(s: State, i: nat, outcomes: seq<Outcome>)
    requires i + |outcomes| == |s.nodes|
    ensures DispatchFrom(s, i, outcomes).limit == s.limit
    decreases |outcomes|
  {
    if outcomes != [] {
      var t := Flush(s, i, outcomes[0].Kept?);
      if s.nodes[i].busy {
        DispatchLimit(s, i + 1, outcomes[1..]);
      } else if s.nodes[i].buf != [] && outcomes[0].NoRoutes? {
        DispatchLimit(Drop(t, i), i, outcomes[1..]);
      } else {
        DispatchLimit(t, i + 1, outcomes[1..]);
      }
    }
  }

  lemma {:induction false} InvAlways(fs: seq<Filter>, limit: int, ss: seq<State>, steps: seq<Step>, n: nat)
    requires IsRun(fs, limit, ss, steps) && n <= |steps|
    ensures DataInv(ss[n]) && FlowInv(ss[n]) && ss[n].limit == limit
    decreases n
  {
    if n > 0 {
      InvAlways(fs, limit, ss, steps, n - 1);
      NextData(fs, ss[n - 1], steps[n - 1]);
      NextFlow(fs, ss[n - 1], steps[n - 1]);
      NextLimit(fs, ss[n - 1], steps[n - 1]);
    }
  }

  /** The filtered records for the tag that arrived while the input was running, in order. */
  ghost function Taken(fs: seq<Filter>, ss: seq<State>, steps: seq<Step>, n: nat, tag: string): (b: Bytes)
    requires |ss| == |steps| + 1 && n <= |steps|
    decreases n
  {
    if n == 0 then []
    else
      var step := steps[n - 1];
      Taken(fs, ss, steps, n - 1, tag) +
      if step.Appends? && step.tag == tag && tag != [] && step.data != [] && !ss[n - 1].paused
      then Filtered(fs, tag, step.data) else []
  }

  lemma {:induction false} NextAccepted(fs: seq<Filter>, s: State, step: Step, tag: string)
    requires Enabled(s, step)
    ensures Of(Next(fs, s, step).accepted, tag) == Of(s.accepted, tag) +
            if step.Appends? && step.tag == tag && tag != [] && step.data != [] && !s.paused
            then Filtered(fs, tag, step.data) else []
  {
    if step.Flushes? {
      DispatchAccepted(s, 0, step.outcomes);
    } else if step.Appends? {
      AppendAccepted(fs, s, step.tag, step.data, tag);
    }
  }

  lemma {:induction false} AppendAccepted(fs: seq<Filter>, s: State, to: string, data: Bytes, tag: string)
    ensures Of(Append(fs, s, to, data).accepted, tag) == Of(s.accepted, tag) +
            if to == tag && tag != [] && data != [] && !s.paused then Filtered(fs, tag, data) else []
  {
    if to != [] {
      var i, t := FirstOpen(s.nodes, to), WithNode(s, to);
      WithNodeSame(s, to);
      if data == [] || s.paused {
        LockAccepted(t, i);
      } else {
        var more := Filtered(fs, to, data);
        KeepAccepted(t, i, more, tag);
        LockAccepted(Keep(t, i, more), i);
      }
    }
  }

  lemma {:induction false} KeepAccepted(s: State, i: nat, more: Bytes, tag: string)
    requires i < |s.nodes|
    ensures Of(Keep(s, i, more).accepted, tag) == Of(s.accepted, tag) + if s.nodes[i].tag == tag then more else []
  {
  }

  lemma {:induction false} LockAccepted(s: State, i: nat)
    requires i < |s.nodes|
    ensures LockFull(s, i).accepted == s.accepted
  {
  }

  lemma {:induction false} DispatchAccepted(s: State, i: nat, outcomes: seq<Outcome>)
    requires i + |outcomes| == |s.nodes|
    ensures DispatchFrom(s, i, outcomes).accepted == s.accepted
    decreases |outcomes|
  {
    if outcomes != [] {
      var t := Flush(s, i, outcomes[0].Kept?);
      if s.nodes[i].busy {
        DispatchAccepted(s, i + 1, outcomes[1..]);
      } else if s.nodes[i].buf != [] && outcomes[0].NoRoutes? {
        DispatchAccepted(Drop(t, i), i, outcomes[1..]);
      } else {
        DispatchAccepted(t, i + 1, outcomes[1..]);
      }
    }
  }

  lemma {:induction false} AcceptedIsTaken(
      fs: seq<Filter>, limit: int, ss: seq<State>, steps: seq<Step>, n: nat, tag: string)
    requires IsRun(fs, limit, ss, steps) && n <= |steps|
    ensures Of(ss[n].accepted, tag) == Taken(fs, ss, steps, n, tag)
    decreases n
  {
    if n > 0 {
      AcceptedIsTaken(fs, limit, ss, steps, n - 1, tag);
      NextAccepted(fs, ss[n - 1], steps[n - 1], tag);
    }
  }

  /**
   In every run and for every tag, the buffers handed to task creation followed by the
   pending ones in list order are exactly the filtered records that were taken in.
   */
  lemma {:induction false} NothingLostOrReordered(
      fs: seq<Filter>, limit: int, ss: seq<State>, steps: seq<Step>, n: nat, tag: string)
    requires IsRun(fs, limit, ss, steps) && n <= |steps|
    ensures Taken(fs, ss, steps, n, tag) == Of(ss[n].handed, tag) + Pending(ss[n].nodes, tag)
  {
    InvAlways(fs, limit, ss, steps, n);
    AcceptedIsTaken(fs, limit, ss, steps, n, tag);
  }

  /** In every run a running input holds less than the limit, and any input less than that plus one append. */
  lemma {:induction false} HeldIsBounded(fs: seq<Filter>, limit: int, ss: seq<State>, steps: seq<Step>, n: nat)
    requires IsRun(fs, limit, ss, steps) && n <= |steps| && limit > 0
    ensures !ss[n].paused ==> Held(ss[n]) < limit
    ensures Held(ss[n]) < limit + ss[n].last
    ensures Alternating(ss[n])
  {
    InvAlways(fs, limit, ss, steps, n);
  }

  /** While paused nothing is taken in. */
  lemma {:induction false} PausedTakesNothing(fs: seq<Filter>, s: State, step: Step, tag: string)
    requires s.paused && (step.Appends? || step.Writes?)
    ensures var s' := Next(fs, s, step);
            && s'.accepted == s.accepted && s'.own == s.own && Held(s') == Held(s) && s'.paused
            && Pending(s'.nodes, tag) == Pending(s.nodes, tag)
  {
    if step.Appends? && step.tag != [] {
      WithNodeSame(s, step.tag);
      var i, t := FirstOpen(s.nodes, step.tag), WithNode(s, step.tag);
      SumUpdate(t.nodes, i, t.nodes[i].(lock := true));
      PendingUpdate(t.nodes, i, t.nodes[i].(lock := true), tag);
    }
  }

  /** Without a limit the input never pauses. */
  lemma {:induction false} NoLimitNeverPauses(fs: seq<Filter>, limit: int, ss: seq<State>, steps: seq<Step>, n: nat)
    requires IsRun(fs, limit, ss, steps) && n <= |steps| && limit <= 0
    ensures !ss[n].paused && ss[n].calls == []
    decreases n
  {
    InvAlways(fs, limit, ss, steps, n);
    if n > 0 {
      NoLimitNeverPauses(fs, limit, ss, steps, n - 1);
      InvAlways(fs, limit, ss, steps, n - 1);
      NoCalls(fs, ss[n - 1], steps[n - 1]);
    }
  }

  lemma {:induction false} NoCalls(fs: seq<Filter>, s: State, step: Step)
    requires s.limit <= 0 && !s.paused && Enabled(s, step)
    ensures Next(fs, s, step).calls == s.calls
  {
    if step.Flushes? {
      DispatchNoCalls(s, 0, step.outcomes);
    }
  }

  lemma {:induction false} DispatchNoCalls(s: State, i: nat, outcomes: seq<Outcome>)
    requires i + |outcomes| == |s.nodes| && !s.paused
    ensures DispatchFrom(s, i, outcomes).calls == s.calls
    decreases |outcomes|
  {
    if outcomes != [] {
      var t := Flush(s, i, outcomes[0].Kept?);
      if s.nodes[i].busy {
        DispatchNoCalls(s, i + 1, outcomes[1..]);
      } else if s.nodes[i].buf != [] && outcomes[0].NoRoutes? {
        DispatchNoCalls(Drop(t, i), i, outcomes[1..]);
      } else {
        DispatchNoCalls(t, i + 1, outcomes[1..]);
      }
    }
  }
}
