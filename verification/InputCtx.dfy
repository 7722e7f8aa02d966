/**
 An input instance as the source keeps it: the list of dynamic tag nodes, the buffer of the
 instance, the byte counter and the status, changed in place.
 */
module InputCtx {
  import Router
  import opened Input
  import opened Wrappers

  class Instance {
    const limit: int
    var live: bool
    var own: Bytes
    var nodes: seq<Node>
    var total: nat
    var paused: bool
    ghost var calls: seq<Call>
    ghost var accepted: map<string, Bytes>
    ghost var handed: map<string, Bytes>
    ghost var last: nat

    ghost function View(): (s: State)
      reads this
    {
      State(limit, live, own, nodes, total, paused, calls, accepted, handed, last)
    }

    constructor (limit: int)
      ensures View() == Init(limit)
    {
      this.limit := limit;
      live, own, nodes, total, paused := true, [], [], 0, false;
      calls, accepted, handed, last := [], map[], map[], 0;
    }

    predicate BufOverlimit()
      reads this
    {
      limit > 0 && total >= limit
    }

    method BufSizeSet()
      modifies this`total, this`paused, this`calls
      ensures View() == SizeSet(old(View()))
    {
      var sum, i := 0, 0;
      while i < |nodes|
        invariant i <= |nodes| && sum + Sum(nodes[i..]) == Sum(nodes)
      {
        assert nodes[i..][0] == nodes[i] && nodes[i..][1..] == nodes[i + 1..];
        sum := sum + |nodes[i].buf|;
        i := i + 1;
      }
      assert nodes[i..] == [];
      total := sum + |own|;
      if !BufOverlimit() && paused && live {
        paused := false;
        calls := calls + [Resume];
      }
    }

    method BufCheck()
      modifies this`paused, this`calls
      ensures View() == Check(old(View()))
    {
      if BufOverlimit() {
        if !paused {
          calls := calls + [Pause];
        }
        paused := true;
      }
    }

    /** `flb_input_dyntag_get`; None for an empty tag. */
    method DyntagGet(tag: string) returns (r: Option<nat>)
      modifies this`nodes
      ensures r.None? <==> tag == []
      ensures r.None? ==> nodes == old(nodes)
      ensures r.Some? ==> r.value == FirstOpen(old(nodes), tag) && View() == WithNode(old(View()), tag)
    {
      var i := 0;
      while i < |nodes| && !Open(nodes[i], tag)
        invariant i <= |nodes| && FirstOpen(nodes, tag) == i + FirstOpen(nodes[i..], tag)
      {
        assert nodes[i..][0] == nodes[i] && nodes[i..][1..] == nodes[i + 1..];
        i := i + 1;
      }
      if tag == [] {
        return None;
      }
      if i < |nodes| {
        assert nodes[i..][0] == nodes[i];
        return Some(i);
      }
      assert nodes[i..] == [];
      nodes := nodes + [Node(tag, false, false, [], false)];
      return Some(i);
    }

    /** `flb_input_dyntag_append_raw`. */
    method DyntagAppendRaw(fs: seq<Filter>, tag: string, data: Bytes) returns (ok: bool)
      modifies this
      ensures View() == Append(fs, old(View()), tag, data) && (ok <==> tag != [])
    {
      var at := DyntagGet(tag);
      if at.None? {
        return false;
      }
      var i := at.value;
      DbufWrite(fs, i, data);
      if |nodes[i].buf| > LOCK_SIZE {
        nodes := nodes[i := nodes[i].(lock := true)];
      }
      return true;
    }

    /** The write to node `i` between `flb_input_dbuf_write_start` and `flb_input_dbuf_write_end`. */
    method DbufWrite(fs: seq<Filter>, i: nat, data: Bytes)
      requires i < |nodes|
      modifies this
      ensures View() == if data == [] || old(paused) then old(View())
                        else Keep(old(View()), i, Filtered(fs, old(nodes)[i].tag, data))
    {
      var n := nodes[i];
      var start := |n.buf|;
      var buf := n.buf + data;
      var bytes := |buf| - start;
      if bytes == 0 {
        assert buf == n.buf && nodes[i := n] == nodes;
        return;
      }
      if paused {
        nodes := nodes[i := n.(buf := buf[..start])];
        assert buf[..start] == n.buf && nodes == old(nodes);
        return;
      }
      buf := FilterDo(fs, buf, bytes, n.tag);
      ghost var more := Filtered(fs, n.tag, data);
      assert (n.buf + data)[..start] == n.buf && (n.buf + data)[start..] == data;
      nodes := nodes[i := n.(buf := buf)];
      accepted := accepted[n.tag := Of(accepted, n.tag) + more];
      last := |more|;
      BufSizeSet();
      BufCheck();
    }

    /** The same for the buffer of the instance. */
    method BufWrite(fs: seq<Filter>, tag: string, data: Bytes)
      modifies this
      ensures View() == Write(fs, old(View()), tag, data)
    {
      var start := |own|;
      own := own + data;
      var bytes := |own| - start;
      if bytes == 0 {
        assert own == old(own);
        return;
      }
      if paused {
        own := own[..start];
        assert own == old(own);
        return;
      }
      assert own[..start] == old(own) && own[start..] == data;
      own := FilterDo(fs, own, bytes, tag);
      last := |Filtered(fs, tag, data)|;
      BufSizeSet();
      BufCheck();
    }

    /** The loop of `flb_engine_dispatch` over the dynamic tags. */
    method DispatchTags(outcomes: seq<Outcome>)
      requires |outcomes| == |nodes|
      modifies this
      ensures View() == Dispatch(old(View()), outcomes)
    {
      var i, k := 0, 0;
      while k < |outcomes|
        invariant k <= |outcomes| && i + (|outcomes| - k) == |nodes|
        invariant DispatchFrom(View(), i, outcomes[k..]) == Dispatch(old(View()), outcomes)
        decreases |outcomes| - k
      {
        assert outcomes[k..][0] == outcomes[k] && outcomes[k..][1..] == outcomes[k + 1..];
        if nodes[i].busy {
          i := i + 1;
        } else {
          var size := DyntagFlush(i, outcomes[k].Kept?);
          if size != 0 && outcomes[k].NoRoutes? {
            TaskDestroy(i);
          } else {
            i := i + 1;
          }
        }
        k := k + 1;
      }
      assert outcomes[k..] == [];
    }

    /** `flb_input_dyntag_flush`. */
    method DyntagFlush(i: nat, tasked: bool) returns (size: nat)
      requires i < |nodes|
      modifies this`nodes, this`handed
      ensures View() == Flush(old(View()), i, tasked) && size == |old(nodes)[i].buf|
    {
      var n := nodes[i];
      size := |n.buf|;
      handed := handed[n.tag := Of(handed, n.tag) + n.buf];
      n := n.(lock := false);
      n := n.(busy := true);
      nodes := nodes[i := n.(buf := [], tasked := tasked && size != 0)];
    }

    /** What `flb_task_destroy` does to the input: the node of the task goes, and the bytes are counted again. */
    method TaskDestroy(i: nat)
      requires i < |nodes|
      modifies this
      ensures View() == Drop(old(View()), i)
    {
      nodes := nodes[..i] + nodes[i + 1..];
      BufSizeSet();
    }
  }

  /** `flb_filter_do`: the last `bytes` bytes of the buffer are replaced by what the filters make of them. */
  method FilterDo(fs: seq<Filter>, buf: Bytes, bytes: nat, tag: string) returns (r: Bytes)
    requires bytes <= |buf|
    ensures r == buf[..|buf| - bytes] + Filtered(fs, tag, buf[|buf| - bytes..])
  {
    r := buf;
    var data, k := buf[|buf| - bytes..], 0;
    ghost var head, tail := buf[..|buf| - bytes], data;
    while k < |fs|
      invariant k <= |fs| && r == head + data
      invariant Filtered(fs[k..], tag, data) == Filtered(fs, tag, tail)
    {
      assert fs[k..][0] == fs[k] && fs[k..][1..] == fs[k + 1..];
      var matched := Router.RouterMatch(tag, fs[k].pattern);
      if matched {
        var out := fs[k].cb(data, tag);
        if out.Some? {
          assert r[..|r| - |data|] == head;
          r := r[..|r| - |data|] + out.value;
          data := out.value;
        }
      }
      k := k + 1;
    }
    assert fs[k..] == [];
  }
}
