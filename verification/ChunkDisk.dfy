/**
 Buffer chunks on disk (src/flb_buffer_chunk.c): a chunk is moved to the outgoing directory
 with a reference file for every output it goes to; deleting the references one by one, in
 any order, finally deletes the chunk, and a scan at start finds what is still undelivered.
 The directories are sets of names.  There are fewer than 32 outputs, and output number `k`
 has the mask 2^k.
 */
module ChunkDisk {
  import opened Bits
  import opened ChunkName
  import opened Wrappers

  /** A file tasks/OUTPUT/NAME. */
  datatype Ref = Ref(out: nat, name: string)

  datatype Pop = Pop(hash: string, out: nat)

  /** Directories and queues; `added`, `promoted` and `popped` record what has happened so far. */
  datatype Disk = Disk(
    incoming: set<string>,
    outgoing: set<string>,
    refs: set<Ref>,
    mov: seq<string>,
    delRef: seq<Pop>,
    del: seq<string>,
    added: map<string, Info>,
    promoted: set<string>,
    popped: set<Pop>)

  const EmptyDisk := Disk({}, {}, {}, [], [], [], map[], {}, {})

  predicate HasHash(name: string, hash: string) { |name| >= 40 && name[..40] == hash }

  /** `chunk_find`. */
  predicate IsFound(dir: set<string>, hash: string, r: Option<string>) {
    if r.Some? then r.value in dir && HasHash(r.value, hash)
    else forall n :: n in dir ==> !HasHash(n, hash)
  }

  ghost function Find(dir: set<string>, hash: string): (r: Option<string>)
    ensures IsFound(dir, hash, r)
  {
    if exists n :: n in dir && HasHash(n, hash) then
      var n :| n in dir && HasHash(n, hash);
      Some(n)
    else None
  }

  function RefDir(refs: set<Ref>, out: nat): (dir: set<string>) { set r | r in refs && r.out == out :: r.name }

  /** The outputs among `outs` that the routes select. */
  predicate Selects(outs: nat, routes: nat, out: nat) { out < outs && Bit(routes, out) }

  /** The value of an unsigned number stored in an int. */
  function ToInt(m: nat): (x: int) {
    var w := m % 0x1_0000_0000;
    if w < 0x8000_0000 then w else w - 0x1_0000_0000
  }

  // ---------------------------------------------------------------- steps

  /** `flb_buffer_chunk_add`; the move is requested unless the routes, returned as an int, are negative. */
  function Add(s: Disk, i: Info): (r: Disk) {
    s.(incoming := s.incoming + {Name(i)}, mov := s.mov + if ToInt(i.routes) >= 0 then [Name(i)] else [],
       added := s.added[i.hash := i])
  }

  function NewRefs(outs: nat, name: string): (refs: set<Ref>) {
    set out | 0 <= out < outs && ScanRoutes(name).Some? && Bit(ScanRoutes(name).value, out) :: Ref(out, name)
  }

  /** `flb_buffer_chunk_real_move`; a chunk that is not there is not moved. */
  function Move(outs: nat, s: Disk): (r: Disk)
    requires s.mov != []
  {
    var n := s.mov[0];
    if n !in s.incoming then s.(mov := s.mov[1..])
    else
      s.(incoming := s.incoming - {n}, outgoing := s.outgoing + {n}, refs := s.refs + NewRefs(outs, n),
         mov := s.mov[1..], promoted := s.promoted + {n[..if |n| < 40 then |n| else 40]})
  }

  /** `flb_buffer_chunk_pop`. */
  function Request(s: Disk, p: Pop): (r: Disk) {
    s.(delRef := s.delRef + [p], popped := s.popped + {p})
  }

  /** `flb_buffer_chunk_delete_ref` when the reference is there. */
  ghost function DeleteRef(s: Disk): (r: Disk)
    requires s.delRef != [] && Find(RefDir(s.refs, s.delRef[0].out), s.delRef[0].hash).Some?
  {
    DeleteRefFound(s, Find(RefDir(s.refs, s.delRef[0].out), s.delRef[0].hash), None, None)
  }

  predicate Referenced(outs: nat, s: Disk, n: string) { exists out :: 0 <= out < outs && Ref(out, n) in s.refs }

  /** `flb_buffer_chunk_delete`, with the file that was found. */
  function DeleteFound(outs: nat, s: Disk, f: Option<string>): (r: Disk)
    requires s.del != []
  {
    var t := s.(del := s.del[1..]);
    if f.None? || Parse(f.value).None? || Referenced(outs, s, f.value) then t
    else t.(outgoing := s.outgoing - {f.value})
  }

  ghost function Delete(outs: nat, s: Disk): (r: Disk)
    requires s.del != []
  {
    DeleteFound(outs, s, Find(s.outgoing, s.del[0]))
  }

  /** `chunk_remove_route` on a file of a directory; a name that cannot be read is left alone. */
  function WithoutRoute(dir: set<string>, name: string, mask: nat): (r: set<string>) {
    match Parse(name)
    case None => dir
    case Some(i) =>
      match RemoveRoute(i, mask)
      case None => dir - {name}
      case Some(to) => dir - {name} + {to}
  }

  /** `chunk_miss`, for a reference that is not there, with the files found in the two queues. */
  function Missed(s: Disk, p: Pop, out: Option<string>, inc: Option<string>): (r: Disk) {
    if out.Some? then s.(outgoing := WithoutRoute(s.outgoing, out.value, Pow2(p.out)))
    else if inc.Some? then s.(incoming := WithoutRoute(s.incoming, inc.value, Pow2(p.out)))
    else s
  }

  /** `flb_buffer_chunk_delete_ref`, with the files that were found. */
  function DeleteRefFound(s: Disk, f: Option<string>, out: Option<string>, inc: Option<string>): (r: Disk)
    requires s.delRef != []
  {
    var p, t := s.delRef[0], s.(delRef := s.delRef[1..]);
    if f.Some? then t.(refs := s.refs - {Ref(p.out, f.value)}, del := s.del + [p.hash]) else Missed(t, p, out, inc)
  }

  // ---------------------------------------------------------------- invariant

  /** The name of a chunk that was added. */
  function NameOf(s: Disk, h: string): (n: string)
    requires h in s.added
  {
    Name(s.added[h])
  }

  /** The name is that of a chunk that was added. */
  predicate Known(s: Disk, n: string) { |n| >= 40 && n[..40] in s.added && n == NameOf(s, n[..40]) }

  /** The route has been delivered: its reference was popped, and the request handled. */
  predicate Delivered(s: Disk, h: string, out: nat) { Pop(h, out) in s.popped && Pop(h, out) !in s.delRef }

  predicate Undelivered(outs: nat, s: Disk, h: string, out: nat)
    requires h in s.added
  {
    Selects(outs, s.added[h].routes, out) && !Delivered(s, h, out)
  }

  predicate AddedOk(s: Disk) {
    (forall h :: h in s.added ==> HexHash(h) && s.added[h].hash == h) && s.promoted <= s.added.Keys
  }

  predicate IncomingOk(s: Disk) {
    && (forall n :: n in s.incoming ==> Known(s, n) && n[..40] !in s.promoted)
    && (forall i :: 0 <= i < |s.mov| ==> s.mov[i] in s.incoming)
    && (forall i, j :: 0 <= i < j < |s.mov| ==> s.mov[i] != s.mov[j])
  }

  predicate FilesOk(outs: nat, s: Disk) {
    && (forall n :: n in s.outgoing ==> Known(s, n) && n[..40] in s.promoted)
    && (forall r :: r in s.refs ==> Known(s, r.name) && r.name[..40] in s.promoted && r.out < outs)
  }

  predicate RequestsOk(outs: nat, s: Disk) {
    && (forall p :: p in s.popped ==>
          p.hash in s.promoted && p.hash in s.added && Selects(outs, s.added[p.hash].routes, p.out))
    && (forall i :: 0 <= i < |s.delRef| ==> s.delRef[i] in s.popped)
    && (forall i, j :: 0 <= i < j < |s.delRef| ==> s.delRef[i] != s.delRef[j])
    && (forall i :: 0 <= i < |s.del| ==>
          s.del[i] in s.promoted && s.del[i] in s.added && HasRoutes(outs, s.added[s.del[i]].routes))
  }

  predicate HasUndelivered(outs: nat, s: Disk, h: string)
    requires h in s.added
  {
    exists out :: 0 <= out < outs && Undelivered(outs, s, h, out)
  }

  predicate HasRoutes(outs: nat, routes: nat) { exists out :: 0 <= out < outs && Selects(outs, routes, out) }

  /**
   One promoted chunk: its references are its undelivered routes; it is there while one is
   left, and when none is left it is gone or its deletion is queued.
   */
  ghost predicate ChunkOk(outs: nat, s: Disk, h: string)
    requires h in s.added
  {
    var n := NameOf(s, h);
    && (forall out: nat :: Ref(out, n) in s.refs <==> Undelivered(outs, s, h, out))
    && (HasUndelivered(outs, s, h) ==> n in s.outgoing)
    && (n in s.outgoing && !HasUndelivered(outs, s, h) && HasRoutes(outs, s.added[h].routes) && Readable(s.added[h]) ==>
          h in s.del)
    && (!HasRoutes(outs, s.added[h].routes) || !Readable(s.added[h]) ==> n in s.outgoing)
  }

  ghost predicate Inv(outs: nat, s: Disk) {
    && AddedOk(s) && IncomingOk(s) && FilesOk(outs, s) && RequestsOk(outs, s)
    && (forall h :: h in s.promoted ==> h in s.added && ChunkOk(outs, s, h))
  }

  lemma {:induction false} HashOfName(i: Info)
    requires HexHash(i.hash)
    ensures |Name(i)| >= 40 && Name(i)[..40] == i.hash
  {
  }

  lemma EmptyInv(outs: nat)
    ensures Inv(outs, EmptyDisk)
  {
  }

  // ---------------------------------------------------------------- every step keeps it

  /** Chunks whose files, pops and requests are the same stay as they were. */
  lemma {:induction false} ChunkSame(outs: nat, s: Disk, s': Disk, h: string)
    requires h in s.added && h in s'.added && s'.added[h] == s.added[h] && ChunkOk(outs, s, h)
    requires forall out: nat :: Ref(out, NameOf(s, h)) in s'.refs <==> Ref(out, NameOf(s, h)) in s.refs
    requires forall out: nat :: Delivered(s', h, out) <==> Delivered(s, h, out)
    requires NameOf(s, h) in s'.outgoing <==> NameOf(s, h) in s.outgoing
    requires h in s.del ==> h in s'.del
    ensures ChunkOk(outs, s', h)
  {
    assert forall out: nat :: Undelivered(outs, s', h, out) <==> Undelivered(outs, s, h, out);
  }

  lemma {:induction false} AddKeeps(outs: nat, s: Disk, i: Info)
    requires Inv(outs, s) && HexHash(i.hash) && i.hash !in s.added
    ensures Inv(outs, Add(s, i))
  {
    AddLists(outs, s, i);
    var s' := Add(s, i);
    forall h | h in s'.promoted ensures h in s'.added && ChunkOk(outs, s', h) {
      ChunkSame(outs, s, s', h);
    }
  }

  lemma {:induction false} AddLists(outs: nat, s: Disk, i: Info)
    requires AddedOk(s) && IncomingOk(s) && FilesOk(outs, s) && RequestsOk(outs, s)
    requires HexHash(i.hash) && i.hash !in s.added
    ensures var s' := Add(s, i);
            AddedOk(s') && IncomingOk(s') && FilesOk(outs, s') && RequestsOk(outs, s')
  {
    HashOfName(i);
    var s' := Add(s, i);
    forall n | Known(s, n) ensures Known(s', n) {
    }
    assert Known(s', Name(i));
  }

  /** Names of different chunks differ. */
  lemma {:induction false} NamesDiffer(s: Disk, h: string, h': string)
    requires AddedOk(s) && h in s.added && h' in s.added && h != h'
    ensures NameOf(s, h) != NameOf(s, h')
  {
    HashOfName(s.added[h]);
    HashOfName(s.added[h']);
  }

  lemma {:induction false} MoveForm(outs: nat, s: Disk) returns (h: string)
    requires AddedOk(s) && IncomingOk(s) && s.mov != []
    ensures h in s.added && h !in s.promoted && s.mov[0] == NameOf(s, h) && s.mov[0] in s.incoming
    ensures Move(outs, s) == s.(incoming := s.incoming - {s.mov[0]}, outgoing := s.outgoing + {s.mov[0]},
              refs := s.refs + NewRefs(outs, s.mov[0]), mov := s.mov[1..], promoted := s.promoted + {h})
    ensures forall out: nat :: Ref(out, s.mov[0]) in NewRefs(outs, s.mov[0]) <==> Selects(outs, s.added[h].routes, out)
  {
    var n := s.mov[0];
    h := n[..40];
    ScanReadsRoutes(s.added[h]);
  }

  lemma {:induction false} MoveNew(outs: nat, s: Disk, h: string)
    requires AddedOk(s) && FilesOk(outs, s) && RequestsOk(outs, s) && s.mov != [] && h in s.added && h !in s.promoted
    requires s.mov[0] == NameOf(s, h) && s.mov[0] in s.incoming
    requires Move(outs, s).refs == s.refs + NewRefs(outs, s.mov[0])
    requires forall out: nat :: Ref(out, s.mov[0]) in NewRefs(outs, s.mov[0]) <==> Selects(outs, s.added[h].routes, out)
    ensures ChunkOk(outs, Move(outs, s), h)
  {
    var s' := Move(outs, s);
    HashOfName(s.added[h]);
    forall out: nat ensures !Delivered(s', h, out) {
    }
    forall out: nat ensures Ref(out, s.mov[0]) in s'.refs <==> Undelivered(outs, s', h, out) {
    }
    if HasRoutes(outs, s.added[h].routes) {
      var out: nat :| out < outs && Selects(outs, s.added[h].routes, out);
      assert Undelivered(outs, s', h, out);
    }
  }

  lemma {:induction false} MoveLists(outs: nat, s: Disk)
    requires AddedOk(s) && IncomingOk(s) && FilesOk(outs, s) && RequestsOk(outs, s) && s.mov != []
    ensures var s' := Move(outs, s);
            AddedOk(s') && IncomingOk(s') && FilesOk(outs, s') && RequestsOk(outs, s')
  {
    var h := MoveForm(outs, s);
    var s' := Move(outs, s);
    forall n | n in s'.incoming ensures Known(s', n) && n[..40] !in s'.promoted {
      assert Known(s, n);
    }
  }

  lemma {:induction false} MoveKeeps(outs: nat, s: Disk)
    requires Inv(outs, s) && s.mov != []
    ensures Inv(outs, Move(outs, s))
  {
    var h := MoveForm(outs, s);
    MoveLists(outs, s);
    var s' := Move(outs, s);
    forall x | x in s'.promoted ensures x in s'.added && ChunkOk(outs, s', x) {
      if x == h {
        MoveNew(outs, s, h);
      } else {
        NamesDiffer(s, x, h);
        ChunkSame(outs, s, s', x);
      }
    }
  }

  lemma {:induction false} RequestKeeps(outs: nat, s: Disk, p: Pop)
    requires Inv(outs, s) && p.hash in s.promoted && p !in s.popped && p.hash in s.added
    requires Selects(outs, s.added[p.hash].routes, p.out)
    ensures Inv(outs, Request(s, p))
  {
    var s' := Request(s, p);
    forall h | h in s'.promoted ensures h in s'.added && ChunkOk(outs, s', h) {
      forall out: nat ensures Delivered(s', h, out) <==> Delivered(s, h, out) {
        if Pop(h, out) == p {
          assert s'.delRef[|s.delRef|] == p;
        }
      }
      ChunkSame(outs, s, s', h);
    }
  }

  /** A queued request always finds its reference, and only that one. */
  lemma {:induction false} DeleteRefFinds(outs: nat, s: Disk)
    requires Inv(outs, s) && s.delRef != []
    ensures var p := s.delRef[0];
            p.hash in s.promoted && p.hash in s.added && Find(RefDir(s.refs, p.out), p.hash) == Some(NameOf(s, p.hash))
            && Ref(p.out, NameOf(s, p.hash)) in s.refs
  {
    var p := s.delRef[0];
    assert p in s.popped;
    var n := NameOf(s, p.hash);
    assert ChunkOk(outs, s, p.hash);
    assert Undelivered(outs, s, p.hash, p.out);
    HashOfName(s.added[p.hash]);
    assert n in RefDir(s.refs, p.out);
  }

  lemma {:induction false} DeleteRefLists(outs: nat, s: Disk)
    requires Inv(outs, s) && s.delRef != [] && Find(RefDir(s.refs, s.delRef[0].out), s.delRef[0].hash).Some?
    ensures var s' := DeleteRef(s);
            AddedOk(s') && IncomingOk(s') && FilesOk(outs, s') && RequestsOk(outs, s')
  {
    var p := s.delRef[0];
    assert p in s.popped;
    assert Selects(outs, s.added[p.hash].routes, p.out);
  }

  /** The chunk that loses a reference. */
  lemma {:induction false} DeleteRefOwn(outs: nat, s: Disk, s': Disk, h: string, out: nat)
    requires h in s.added && ChunkOk(outs, s, h) && Undelivered(outs, s, h, out) && s'.added == s.added
    requires s'.refs == s.refs - {Ref(out, NameOf(s, h))} && s'.outgoing == s.outgoing && h in s'.del
    requires forall o: nat :: Delivered(s', h, o) <==> Delivered(s, h, o) || o == out
    ensures ChunkOk(outs, s', h)
  {
    forall o: nat ensures Undelivered(outs, s', h, o) <==> Undelivered(outs, s, h, o) && o != out {
    }
    assert HasUndelivered(outs, s, h);
    if HasUndelivered(outs, s', h) {
      var o :| 0 <= o < outs && Undelivered(outs, s', h, o);
      assert Undelivered(outs, s, h, o);
    }
  }

  lemma {:induction false} DeleteRefKeeps(outs: nat, s: Disk)
    requires Inv(outs, s) && s.delRef != []
    ensures Find(RefDir(s.refs, s.delRef[0].out), s.delRef[0].hash).Some? && Inv(outs, DeleteRef(s))
  {
    DeleteRefFinds(outs, s);
    DeleteRefLists(outs, s);
    var p, s' := s.delRef[0], DeleteRef(s);
    forall h, o: nat | h in s.promoted ensures Delivered(s', h, o) <==> Delivered(s, h, o) || Pop(h, o) == p {
    }
    assert s'.del[|s.del|] == p.hash;
    forall h | h in s'.promoted ensures h in s'.added && ChunkOk(outs, s', h) {
      if h == p.hash {
        DeleteRefOwn(outs, s, s', h, p.out);
      } else {
        NamesDiffer(s, h, p.hash);
        ChunkSame(outs, s, s', h);
      }
    }
  }

  /** What a delete request does: it drops the chunk if and only if no reference is left. */
  lemma {:induction false} DeleteForm(outs: nat, s: Disk)
    requires Inv(outs, s) && s.del != []
    ensures var h := s.del[0];
            && h in s.promoted && h in s.added
            && Delete(outs, s) ==
               var t := s.(del := s.del[1..]);
               if NameOf(s, h) in s.outgoing && Readable(s.added[h]) && !HasUndelivered(outs, s, h)
               then t.(outgoing := s.outgoing - {NameOf(s, h)}) else t
  {
    var h := s.del[0];
    var n := NameOf(s, h);
    HashOfName(s.added[h]);
    NameRoundTrip(s.added[h]);
    assert ChunkOk(outs, s, h);
    var f := Find(s.outgoing, h);
    assert f.Some? ==> f.value == n;
    assert f.Some? <==> n in s.outgoing;
    assert Referenced(outs, s, n) <==> HasUndelivered(outs, s, h);
  }

  lemma {:induction false} DeleteOwn(outs: nat, s: Disk, s': Disk, h: string)
    requires h in s.added && ChunkOk(outs, s, h) && s'.added == s.added && s'.refs == s.refs
    requires s'.popped == s.popped && s'.delRef == s.delRef && HasRoutes(outs, s.added[h].routes)
    requires if NameOf(s, h) in s.outgoing && Readable(s.added[h]) && !HasUndelivered(outs, s, h)
             then s'.outgoing == s.outgoing - {NameOf(s, h)} else s'.outgoing == s.outgoing
    ensures ChunkOk(outs, s', h)
  {
    assert forall out: nat :: Undelivered(outs, s', h, out) <==> Undelivered(outs, s, h, out);
    assert HasUndelivered(outs, s', h) <==> HasUndelivered(outs, s, h);
  }

  lemma {:induction false} DeleteLists(outs: nat, s: Disk, s': Disk)
    requires AddedOk(s) && IncomingOk(s) && FilesOk(outs, s) && RequestsOk(outs, s) && s.del != []
    requires s' == s.(del := s.del[1..], outgoing := s'.outgoing) && s'.outgoing <= s.outgoing
    ensures AddedOk(s') && IncomingOk(s') && FilesOk(outs, s') && RequestsOk(outs, s')
  {
  }

  lemma {:induction false} DeleteKeeps(outs: nat, s: Disk)
    requires Inv(outs, s) && s.del != []
    ensures Inv(outs, Delete(outs, s))
  {
    DeleteForm(outs, s);
    var h, s' := s.del[0], Delete(outs, s);
    DeleteLists(outs, s, s');
    forall x | x in s'.promoted ensures x in s'.added && ChunkOk(outs, s', x) {
      DeleteChunk(outs, s, s', h, x);
    }
  }

  lemma {:induction false} DeleteChunk(outs: nat, s: Disk, s': Disk, h: string, x: string)
    requires AddedOk(s) && s.del != [] && h == s.del[0] && h in s.added && x in s.added
    requires HasRoutes(outs, s.added[h].routes)
    requires s' == s.(del := s.del[1..], outgoing := s'.outgoing) && ChunkOk(outs, s, x)
    requires if NameOf(s, h) in s.outgoing && Readable(s.added[h]) && !HasUndelivered(outs, s, h)
             then s'.outgoing == s.outgoing - {NameOf(s, h)} else s'.outgoing == s.outgoing
    ensures ChunkOk(outs, s', x)
  {
    if x == h {
      DeleteOwn(outs, s, s', h);
    } else {
      NamesDiffer(s, x, h);
      ChunkSame(outs, s, s', x);
    }
  }

  // ---------------------------------------------------------------- the scan at start

  /** The masks of the outputs that satisfy `p`, or-ed together. */
  function MaskOf(outs: nat, p: nat -> bool): (m: nat) {
    if outs == 0 then 0 else BitOr(MaskOf(outs - 1, p), if p(outs - 1) then Pow2(outs - 1) else 0)
  }

  lemma {:induction false} MaskBits(outs: nat, p: nat -> bool, k: nat)
    ensures Bit(MaskOf(outs, p), k) <==> k < outs && p(k)
    decreases outs
  {
    if outs == 0 {
      ZeroBits(k);
    } else {
      MaskBits(outs - 1, p, k);
      OrBits(MaskOf(outs - 1, p), if p(outs - 1) then Pow2(outs - 1) else 0, k);
      Pow2Bits(outs - 1, k);
      ZeroBits(k);
    }
  }

  function RefMask(outs: nat, refs: set<Ref>, n: string): (m: nat) { MaskOf(outs, (out: nat) => Ref(out, n) in refs) }

  function DeliveredMask(outs: nat, s: Disk, h: string): (m: nat) { MaskOf(outs, (out: nat) => Delivered(s, h, out)) }

  datatype QueueChunk = QueueChunk(name: string, routes: int, tag: string, hash: string)

  /** What `flb_buffer_chunk_scan` puts back in the queue. */
  function Scan(outs: nat, s: Disk): (r: set<QueueChunk>) {
    set n | n in s.outgoing && Parse(n).Some? && ToInt(RefMask(outs, s.refs, n)) > 0 ::
      QueueChunk(n, ToInt(RefMask(outs, s.refs, n)), Parse(n).value.tag, Parse(n).value.hash)
  }

  /** The references of a chunk spell the routes that are left, bit by bit. */
  lemma {:induction false} RefMaskBits(outs: nat, s: Disk, h: string, k: nat)
    requires h in s.added && ChunkOk(outs, s, h)
    ensures Bit(RefMask(outs, s.refs, NameOf(s, h)), k) <==> Undelivered(outs, s, h, k)
  {
    MaskBits(outs, (out: nat) => Ref(out, NameOf(s, h)) in s.refs, k);
  }

  lemma {:induction false} RefMaskSmall(outs: nat, s: Disk, h: string)
    requires h in s.added && ChunkOk(outs, s, h) && Readable(s.added[h])
    ensures ToInt(RefMask(outs, s.refs, NameOf(s, h))) == RefMask(outs, s.refs, NameOf(s, h))
  {
    var m := RefMask(outs, s.refs, NameOf(s, h));
    forall k: nat ensures Bit(m, k) ==> Bit(s.added[h].routes, k) {
      RefMaskBits(outs, s, h, k);
    }
    WithinLe(m, s.added[h].routes);
  }

  lemma {:induction false} SomeBit(m: nat) returns (k: nat)
    requires m > 0
    ensures Bit(m, k)
  {
    if m % 2 == 1 {
      k := 0;
    } else {
      var j := SomeBit(m / 2);
      k := j + 1;
    }
  }

  lemma {:induction false} RefMaskSome(outs: nat, s: Disk, h: string)
    requires h in s.added && ChunkOk(outs, s, h)
    ensures RefMask(outs, s.refs, NameOf(s, h)) > 0 <==> HasUndelivered(outs, s, h)
  {
    var m := RefMask(outs, s.refs, NameOf(s, h));
    if m > 0 {
      var k := SomeBit(m);
      RefMaskBits(outs, s, h, k);
    }
    if HasUndelivered(outs, s, h) {
      var out: nat :| out < outs && Undelivered(outs, s, h, out);
      RefMaskBits(outs, s, h, out);
      ZeroBits(out);
    }
  }

  /** Routes made of the masks of outputs lose exactly the delivered ones. */
  lemma {:induction false} RefMaskIs(outs: nat, s: Disk, h: string)
    requires h in s.added && ChunkOk(outs, s, h) && forall k: nat :: Bit(s.added[h].routes, k) ==> k < outs
    ensures RefMask(outs, s.refs, NameOf(s, h)) == AndNot(s.added[h].routes, DeliveredMask(outs, s, h))
  {
    var m, d := RefMask(outs, s.refs, NameOf(s, h)), DeliveredMask(outs, s, h);
    forall k: nat ensures Bit(m, k) <==> Bit(AndNot(s.added[h].routes, d), k) {
      RefMaskBits(outs, s, h, k);
      AndNotBits(s.added[h].routes, d, k);
      MaskBits(outs, (out: nat) => Delivered(s, h, out), k);
    }
    BitsDecide(m, AndNot(s.added[h].routes, d));
  }

  /** The entry the scan owes to a chunk. */
  function Owed(outs: nat, s: Disk, h: string): (q: QueueChunk)
    requires h in s.added
  {
    QueueChunk(NameOf(s, h), RefMask(outs, s.refs, NameOf(s, h)), s.added[h].tag, h)
  }

  /** A scan finds every readable chunk with an undelivered route, with just those routes, and nothing else. */
  lemma {:induction false} ScanExactly(outs: nat, s: Disk)
    requires Inv(outs, s)
    ensures Scan(outs, s) ==
            set h | h in s.promoted && h in s.added && Readable(s.added[h]) && HasUndelivered(outs, s, h) ::
              Owed(outs, s, h)
  {
    var r := set h | h in s.promoted && h in s.added && Readable(s.added[h]) && HasUndelivered(outs, s, h) ::
               Owed(outs, s, h);
    forall h | h in s.promoted ensures h in s.added && (Owed(outs, s, h) in Scan(outs, s) <==>
        Readable(s.added[h]) && HasUndelivered(outs, s, h))
    {
      ScanOne(outs, s, h);
    }
    forall q | q in Scan(outs, s) ensures q in r {
      var h := q.name[..40];
      ScanOne(outs, s, h);
    }
  }

  lemma {:induction false} ScanOne(outs: nat, s: Disk, h: string)
    requires AddedOk(s) && h in s.added && ChunkOk(outs, s, h)
    ensures var n := NameOf(s, h);
            var scanned := n in s.outgoing && Parse(n).Some? && ToInt(RefMask(outs, s.refs, n)) > 0;
            && (scanned <==> Readable(s.added[h]) && HasUndelivered(outs, s, h))
            && (scanned ==> QueueChunk(n, ToInt(RefMask(outs, s.refs, n)), Parse(n).value.tag, Parse(n).value.hash) ==
                            Owed(outs, s, h))
  {
    NameRoundTrip(s.added[h]);
    RefMaskSome(outs, s, h);
    if Readable(s.added[h]) {
      RefMaskSmall(outs, s, h);
    }
  }

  // ---------------------------------------------------------------- runs

  datatype Step =
    | Adds(i: Info)    // a chunk with a hash of its own is written and its move requested
    | Moves            // the worker handles a move request
    | Pops(p: Pop)     // the engine is done with one output of a moved chunk
    | DeletesRef       // the worker handles a request to delete a reference
    | Deletes          // the worker handles a request to delete a chunk

  predicate Enabled(outs: nat, s: Disk, step: Step) {
    match step
    case Adds(i) => HexHash(i.hash) && i.hash !in s.added
    case Moves => s.mov != []
    case Pops(p) =>
      p.hash in s.promoted && p.hash in s.added && p !in s.popped && Selects(outs, s.added[p.hash].routes, p.out)
    case DeletesRef => s.delRef != []
    case Deletes => s.del != []
  }

  /** A reference to be deleted is there. */
  ghost predicate Safe(s: Disk, step: Step) {
    step.DeletesRef? ==> s.delRef != [] && Find(RefDir(s.refs, s.delRef[0].out), s.delRef[0].hash).Some?
  }

  ghost function Next(outs: nat, s: Disk, step: Step): (r: Disk)
    requires Enabled(outs, s, step) && Safe(s, step)
  {
    match step
    case Adds(i) => Add(s, i)
    case Moves => Move(outs, s)
    case Pops(p) => Request(s, p)
    case DeletesRef => DeleteRef(s)
    case Deletes => Delete(outs, s)
  }

  ghost predicate IsRun(outs: nat, ss: seq<Disk>, steps: seq<Step>) {
    && |ss| == |steps| + 1 && ss[0] == EmptyDisk
    && forall i :: 0 <= i < |steps| ==>
         Enabled(outs, ss[i], steps[i]) && Safe(ss[i], steps[i]) && ss[i + 1] == Next(outs, ss[i], steps[i])
  }

  /** No step the worker takes ever misses the file it looks for. */
  lemma {:induction false} NothingMissing(outs: nat, s: Disk, step: Step)
    requires Inv(outs, s) && Enabled(outs, s, step)
    ensures Safe(s, step) && Inv(outs, Next(outs, s, step))
  {
    match step
    case Adds(i) => AddKeeps(outs, s, i);
    case Moves => MoveKeeps(outs, s);
    case Pops(p) => RequestKeeps(outs, s, p);
    case DeletesRef => DeleteRefKeeps(outs, s);
    case Deletes => DeleteKeeps(outs, s);
  }

  lemma {:induction false} InvAlways(outs: nat, ss: seq<Disk>, steps: seq<Step>, n: nat)
    requires IsRun(outs, ss, steps) && n <= |steps|
    ensures Inv(outs, ss[n])
    decreases n
  {
    if n == 0 {
      EmptyInv(outs);
    } else {
      InvAlways(outs, ss, steps, n - 1);
      NothingMissing(outs, ss[n - 1], steps[n - 1]);
    }
  }

  /**
   In every interleaving, at every step: a moved chunk has a reference for each undelivered
   route and no other, and it is in the outgoing directory while a reference remains.
   */
  lemma {:induction false} ReferencesAreUndelivered(outs: nat, ss: seq<Disk>, steps: seq<Step>, n: nat, h: string)
    requires IsRun(outs, ss, steps) && n <= |steps| && h in ss[n].promoted
    ensures h in ss[n].added
    ensures forall out: nat :: Ref(out, NameOf(ss[n], h)) in ss[n].refs <==> Undelivered(outs, ss[n], h, out)
    ensures Referenced(outs, ss[n], NameOf(ss[n], h)) ==> NameOf(ss[n], h) in ss[n].outgoing
  {
    InvAlways(outs, ss, steps, n);
    assert ChunkOk(outs, ss[n], h);
  }

  /**
   Once every route is delivered and the queue of deletions is empty the chunk is gone, if
   and only if it had a route and its name can be read back.
   */
  lemma {:induction false} GoneOnceDelivered(outs: nat, ss: seq<Disk>, steps: seq<Step>, n: nat, h: string)
    requires IsRun(outs, ss, steps) && n <= |steps| && h in ss[n].promoted && h in ss[n].added
    requires !HasUndelivered(outs, ss[n], h) && h !in ss[n].del
    ensures NameOf(ss[n], h) !in ss[n].outgoing <==>
            HasRoutes(outs, ss[n].added[h].routes) && Readable(ss[n].added[h])
  {
    InvAlways(outs, ss, steps, n);
    assert ChunkOk(outs, ss[n], h);
  }

  /** A restart at any step finds exactly the undelivered routes. */
  lemma {:induction false} RestartFindsUndelivered(outs: nat, ss: seq<Disk>, steps: seq<Step>, n: nat, h: string)
    requires IsRun(outs, ss, steps) && n <= |steps| && h in ss[n].promoted && h in ss[n].added
    requires forall k: nat :: Bit(ss[n].added[h].routes, k) ==> k < outs
    ensures var s := ss[n];
            var left := AndNot(s.added[h].routes, DeliveredMask(outs, s, h));
            && (Readable(s.added[h]) && left > 0 <==> exists q :: q in Scan(outs, s) && q.hash == h)
            && (forall q :: q in Scan(outs, s) && q.hash == h ==>
                  q == QueueChunk(NameOf(s, h), left, s.added[h].tag, h))
  {
    InvAlways(outs, ss, steps, n);
    var s := ss[n];
    assert ChunkOk(outs, s, h);
    ScanExactly(outs, s);
    RefMaskIs(outs, s, h);
    RefMaskSome(outs, s, h);
    assert Readable(s.added[h]) && HasUndelivered(outs, s, h) ==> Owed(outs, s, h) in Scan(outs, s);
  }
}
