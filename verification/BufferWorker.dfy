/**
 The buffer worker of src/flb_buffer_chunk.c: directories and queues changed in place.  A
 directory is listed in any order.
 */
module BufferWorker {
  import opened Bits
  import opened ChunkName
  import opened ChunkDisk
  import opened Wrappers

  /** With hashes of their own, whatever the order of the directory the same file is found. */
  lemma {:induction false} FoundAlike(s: Disk, dir: set<string>, h: string, r: Option<string>)
    requires forall n :: n in dir ==> Known(s, n)
    requires IsFound(dir, h, r)
    ensures r == Find(dir, h)
  {
    var f := Find(dir, h);
    assert f.Some? ==> HasHash(f.value, h) && f.value in dir;
  }

  class Worker {
    const outs: nat
    var incoming: set<string>
    var outgoing: set<string>
    var refs: set<Ref>
    var mov: seq<string>
    var delRef: seq<Pop>
    var del: seq<string>
    ghost var added: map<string, Info>
    ghost var promoted: set<string>
    ghost var popped: set<Pop>

    ghost function View(): (s: Disk)
      reads this
    {
      Disk(incoming, outgoing, refs, mov, delRef, del, added, promoted, popped)
    }

    constructor (outs: nat)
      ensures View() == EmptyDisk && this.outs == outs
    {
      this.outs := outs;
      incoming, outgoing, refs, mov, delRef, del := {}, {}, {}, [], [], [];
      added, promoted, popped := map[], {}, {};
    }

    method ChunkFind(dir: set<string>, hash: string) returns (r: Option<string>)
      ensures IsFound(dir, hash, r)
    {
      var rest := dir;
      while rest != {}
        invariant rest <= dir && forall n :: n in dir - rest ==> !HasHash(n, hash)
        decreases |rest|
      {
        var n :| n in rest;
        if |n| >= 40 && n[..40] == hash {
          return Some(n);
        }
        rest := rest - {n};
      }
      return None;
    }

    /** `flb_buffer_chunk_add`, and the worker's request to move the chunk. */
    method ChunkAdd(i: Info)
      modifies this
      ensures View() == Add(old(View()), i)
    {
      var name := Name(i);
      incoming := incoming + {name};
      added := added[i.hash := i];
      var ret := ToInt(i.routes);
      if ret >= 0 {
        mov := mov + [name];
      } else {
        assert mov + [] == mov;
      }
    }

    /** `flb_buffer_chunk_real_move`. */
    method RealMove()
      requires mov != []
      modifies this
      ensures View() == Move(outs, old(View()))
    {
      var name := mov[0];
      mov := mov[1..];
      if name !in incoming {
        return;
      }
      incoming := incoming - {name};
      outgoing := outgoing + {name};
      promoted := promoted + {name[..if |name| < 40 then |name| else 40]};
      var routes := ScanRoutes(name);
      if routes.None? {
        assert NewRefs(outs, name) == {};
        return;
      }
      MakeRefs(name, routes.value);
    }

    /** A reference for every output whose mask is in the routes. */
    method MakeRefs(name: string, routes: nat)
      requires ScanRoutes(name) == Some(routes)
      modifies this`refs
      ensures refs == old(refs) + NewRefs(outs, name)
    {
      var out := 0;
      while out < outs
        invariant out <= outs && refs == old(refs) + NewRefs(out, name)
      {
        TestBit(out, routes);
        if BitAnd(Pow2(out), routes) != 0 {
          refs := refs + {Ref(out, name)};
          assert NewRefs(out + 1, name) == NewRefs(out, name) + {Ref(out, name)};
        } else {
          assert NewRefs(out + 1, name) == NewRefs(out, name);
        }
        out := out + 1;
      }
    }

    /** `flb_buffer_chunk_pop`. */
    method ChunkPop(p: Pop)
      modifies this
      ensures View() == Request(old(View()), p)
    {
      delRef := delRef + [p];
      popped := popped + {p};
    }

    /** `chunk_remove_route` on a file of the outgoing or the incoming directory. */
    method RemoveRouteOf(dir: set<string>, name: string, mask: nat) returns (r: set<string>)
      ensures r == WithoutRoute(dir, name, mask)
    {
      var info := ChunkInfo(name);
      if info.None? {
        return dir;
      }
      var routes := AndNot(info.value.routes, mask);
      if routes == 0 {
        return dir - {name};
      }
      return dir - {name} + {Name(info.value.(routes := routes))};
    }

    /** `chunk_miss`. */
    method ChunkMiss(p: Pop) returns (ghost out: Option<string>, ghost inc: Option<string>)
      modifies this`outgoing, this`incoming
      ensures IsFound(old(outgoing), p.hash, out) && IsFound(old(incoming), p.hash, inc)
      ensures View() == Missed(old(View()), p, out, inc)
    {
      var target := ChunkFind(outgoing, p.hash);
      var other := ChunkFind(incoming, p.hash);
      out, inc := target, other;
      if target.Some? {
        outgoing := RemoveRouteOf(outgoing, target.value, Pow2(p.out));
      } else if other.Some? {
        incoming := RemoveRouteOf(incoming, other.value, Pow2(p.out));
      }
    }

    /** `flb_buffer_chunk_delete_ref`. */
    method ChunkDeleteRef() returns (ghost f: Option<string>, ghost out: Option<string>, ghost inc: Option<string>)
      requires delRef != []
      modifies this
      ensures IsFound(RefDir(old(refs), old(delRef)[0].out), old(delRef)[0].hash, f)
      ensures f.None? ==>
                IsFound(old(outgoing), old(delRef)[0].hash, out) && IsFound(old(incoming), old(delRef)[0].hash, inc)
      ensures View() == DeleteRefFound(old(View()), f, out, inc)
      ensures Inv(outs, old(View())) ==> Safe(old(View()), DeletesRef) && View() == DeleteRef(old(View()))
    {
      ghost var s := View();
      if Inv(outs, s) {
        DeleteRefFinds(outs, s);
      }
      out, inc := None, None;
      var p := delRef[0];
      var target := ChunkFind(RefDir(refs, p.out), p.hash);
      f := target;
      if Inv(outs, s) {
        FoundAlike(s, RefDir(refs, p.out), p.hash, f);
      }
      delRef := delRef[1..];
      if target.None? {
        out, inc := ChunkMiss(p);
      } else {
        refs := refs - {Ref(p.out, target.value)};
        del := del + [p.hash];
      }
    }

    /** Whether any output still has a reference to the chunk. */
    method Remaining(name: string) returns (found: bool)
      ensures found <==> Referenced(outs, View(), name)
    {
      var out := 0;
      while out < outs
        invariant out <= outs && forall k :: 0 <= k < out ==> Ref(k, name) !in refs
      {
        if Ref(out, name) in refs {
          return true;
        }
        out := out + 1;
      }
      return false;
    }

    /** `flb_buffer_chunk_delete`. */
    method ChunkDelete() returns (ghost f: Option<string>)
      requires del != []
      modifies this
      ensures IsFound(old(outgoing), old(del)[0], f) && View() == DeleteFound(outs, old(View()), f)
      ensures Inv(outs, old(View())) ==> View() == Delete(outs, old(View()))
    {
      var hash := del[0];
      var target := ChunkFind(outgoing, hash);
      f := target;
      if Inv(outs, View()) {
        FoundAlike(View(), outgoing, hash, f);
      }
      del := del[1..];
      if target.None? {
        return;
      }
      var info := ChunkInfo(target.value);
      if info.None? {
        return;
      }
      var remaining := Remaining(target.value);
      if !remaining {
        outgoing := outgoing - {target.value};
      }
    }

    /** The masks of the outputs that have a reference to the chunk. */
    method PendingRoutes(name: string) returns (routes: nat)
      ensures routes == RefMask(outs, refs, name)
    {
      routes := 0;
      var out := 0;
      while out < outs
        invariant out <= outs && routes == RefMask(out, refs, name)
      {
        if Ref(out, name) in refs {
          routes := BitOr(routes, Pow2(out));
        } else {
          OrZero(routes);
        }
        out := out + 1;
      }
    }

    /** `flb_buffer_chunk_scan`. */
    method ChunkScan() returns (queue: set<QueueChunk>)
      ensures queue == Scan(outs, View())
    {
      queue := {};
      var rest := outgoing;
      while rest != {}
        invariant rest <= outgoing
        invariant queue == Scan(outs, View().(outgoing := outgoing - rest))
        decreases |rest|
      {
        var n :| n in rest;
        var info := ChunkInfo(n);
        var routes := PendingRoutes(n);
        ghost var seen := outgoing - rest;
        rest := rest - {n};
        assert outgoing - rest == seen + {n};
        if info.Some? && ToInt(routes) > 0 {
          queue := queue + {QueueChunk(n, ToInt(routes), info.value.tag, info.value.hash)};
        }
      }
      assert outgoing - rest == outgoing;
    }
  }
}
