/**
 Names of buffer chunk files (src/flb_buffer_chunk.c): forty hex digits of a hash, the mask
 of routes, the worker and the tag, printed and read back.
 */
module ChunkName {
  import opened Bits
  import opened Chars
  import opened Decimal
  import opened Wrappers
  import Router

  datatype Info = Info(hash: string, routes: nat, worker: nat, tag: string)

  predicate HexHash(s: string) { |s| == 40 && forall i :: 0 <= i < 40 ==> IsHex(s[i]) }

  /** The format of `flb_buffer_chunk_add` and `chunk_remove_route`. */
  function Name(i: Info): (s: string) {
    i.hash + "." + Dec(i.routes) + ".w" + Dec(i.worker) + "." + i.tag
  }

  // ---------------------------------------------------------------- reading a name

  function NextDot(f: string, i: nat): (k: nat)
    requires i <= |f|
    ensures i <= k <= |f| && (k < |f| ==> f[k] == '.')
    ensures forall j :: i <= j < k ==> f[j] != '.'
    decreases |f| - i
  {
    if i == |f| || f[i] == '.' then i else NextDot(f, i + 1)
  }

  datatype Field = Field(value: nat, next: nat)

  /** One to eight digits up to a dot, and where the text goes on. */
  function Number(f: string, i: nat): (r: Option<Field>)
    requires i <= |f|
    ensures r.Some? ==> i < r.value.next <= |f|
  {
    var k := NextDot(f, i);
    if k == |f| || k - i < 1 || k - i > 8 || !AllDigits(f[i..k]) then None
    else Some(Field(ValueOf(f[i..k]), k + 1))
  }

  function ParseTag(f: string, p: nat, routes: nat, worker: nat): (r: Option<Info>)
    requires 40 <= p <= |f|
  {
    if p == |f| || !IsAlpha(f[p]) then None else Some(Info(f[..40], routes, worker, f[p..]))
  }

  function ParseWorker(f: string, p: nat, routes: nat): (r: Option<Info>)
    requires 40 <= p <= |f|
  {
    if p == |f| || f[p] != 'w' then None
    else
      match Number(f, p + 1)
      case None => None
      case Some(n) => ParseTag(f, n.next, routes, n.value)
  }

  function Parse(f: string): (r: Option<Info>) {
    if |f| < 47 || !HexHash(f[..40]) || f[40] != '.' then None
    else
      match Number(f, 41)
      case None => None
      case Some(n) => ParseWorker(f, n.next, n.value)
  }

  // ---------------------------------------------------------------- chunk_info

  lemma {:induction false} DotIs(f: string, i: nat, k: nat)
    requires i <= k <= |f| && (k < |f| ==> f[k] == '.') && forall j :: i <= j < k ==> f[j] != '.'
    ensures NextDot(f, i) == k
    decreases k - i
  {
    if i < k {
      DotIs(f, i + 1, k);
    }
  }

  method ReadNumber(f: string, i: nat) returns (r: Option<Field>)
    requires i <= |f|
    ensures r == Number(f, i)
  {
    var p := Router.Strchr(f, i, '.');
    DotIs(f, i, p);
    if p == |f| {
      return None;
    }
    var len := p - i;
    if len < 1 || len > 8 {
      return None;
    }
    var num := f[i..p];
    var k := 0;
    while k < len
      invariant k <= len && forall j :: 0 <= j < k ==> IsDigit(num[j])
    {
      if !IsDigit(num[k]) {
        return None;
      }
      k := k + 1;
    }
    return Some(Field(ValueOf(num), p + 1));
  }

  method ChunkInfo(filename: string) returns (r: Option<Info>)
    ensures r == Parse(filename)
  {
    if |filename| < 47 {
      return None;
    }
    var i := 0;
    while i < 40
      invariant i <= 40 && forall j :: 0 <= j < i ==> IsHex(filename[j])
    {
      if !IsHex(filename[i]) {
        assert !IsHex(filename[..40][i]);
        return None;
      }
      i := i + 1;
    }
    if filename[40] != '.' {
      return None;
    }
    var routes := ReadNumber(filename, 41);
    if routes.None? {
      return None;
    }
    var p := routes.value.next;
    if p == |filename| || filename[p] != 'w' {
      return None;
    }
    var worker := ReadNumber(filename, p + 1);
    if worker.None? {
      return None;
    }
    p := worker.value.next;
    if p == |filename| || !IsAlpha(filename[p]) {
      return None;
    }
    return Some(Info(filename[..40], routes.value.value, worker.value.value, filename[p..]));
  }

  // ---------------------------------------------------------------- round trip

  /** The fields that survive. */
  predicate Readable(i: Info) {
    i.routes < 100000000 && i.worker < 100000000 && i.tag != [] && IsAlpha(i.tag[0])
  }

  /** A digit string after `a` and before a dot and `b`. */
  lemma {:induction false} NumberReads(f: string, a: string, d: string, b: string)
    requires f == a + d + "." + b && AllDigits(d) && |d| >= 1
    ensures Number(f, |a|) == if |d| <= 8 then Some(Field(ValueOf(d), |a| + |d| + 1)) else None
  {
    var k := |a| + |d|;
    assert f[|a|..k] == d;
    forall j | |a| <= j < k ensures f[j] != '.' {
      assert f[j] == d[j - |a|];
    }
    DotIs(f, |a|, k);
  }

  function Layout(hash: string, d1: string, d2: string, tag: string): (f: string) {
    hash + "." + d1 + ".w" + d2 + "." + tag
  }

  lemma {:induction false} LayoutParts(hash: string, d1: string, d2: string, tag: string)
    ensures Layout(hash, d1, d2, tag) == (hash + ".") + d1 + "." + ("w" + d2 + "." + tag)
    ensures Layout(hash, d1, d2, tag) == (hash + "." + d1 + ".w") + d2 + "." + tag
  {
  }

  lemma {:induction false} LayoutEnds(hash: string, d1: string, d2: string, tag: string)
    requires |hash| == 40
    ensures var f, q := Layout(hash, d1, d2, tag), 44 + |d1| + |d2|;
            && |f| == q + |tag| && f[..40] == hash && f[40] == '.' && f[42 + |d1|] == 'w'
            && f[q..] == tag && (tag != [] ==> f[q] == tag[0])
  {
  }

  predicate Digits(d: string) { |d| >= 1 && AllDigits(d) }

  lemma {:induction false} ParseLayout(hash: string, d1: string, d2: string, tag: string)
    requires HexHash(hash) && Digits(d1) && Digits(d2)
    ensures Parse(Layout(hash, d1, d2, tag)) ==
            if |d1| <= 8 && |d2| <= 8 && tag != [] && IsAlpha(tag[0])
            then Some(Info(hash, ValueOf(d1), ValueOf(d2), tag)) else None
  {
    var f := Layout(hash, d1, d2, tag);
    LayoutParts(hash, d1, d2, tag);
    NumberReads(f, hash + ".", d1, "w" + d2 + "." + tag);
    NumberReads(f, hash + "." + d1 + ".w", d2, tag);
    LayoutEnds(hash, d1, d2, tag);
  }

  /** The fields as they stand in a name. */
  predicate Spells(f: string, i: Info, d1: string, d2: string) {
    && f == Layout(i.hash, d1, d2, i.tag) && HexHash(i.hash) && i.tag != [] && IsAlpha(i.tag[0])
    && Digits(d1) && |d1| <= 8 && ValueOf(d1) == i.routes
    && Digits(d2) && |d2| <= 8 && ValueOf(d2) == i.worker
  }

  lemma {:induction false} CutName(f: string, n: nat, m: nat)
    requires 42 <= n < m <= |f| && n + 2 <= m && f[40] == '.' && f[n - 1] == '.' && f[n] == 'w' && f[m - 1] == '.'
    ensures f == Layout(f[..40], f[41..n - 1], f[n + 1..m - 1], f[m..])
  {
    assert f[..41] == f[..40] + ".";
    assert f[..n - 1] == f[..41] + f[41..n - 1];
    assert f[..n + 1] == f[..n - 1] + ".w";
    assert f[..m - 1] == f[..n + 1] + f[n + 1..m - 1];
    assert f[..m] == f[..m - 1] + ".";
    assert f == f[..m] + f[m..];
  }

  lemma {:induction false} ParsedSpells(f: string, i: Info) returns (d1: string, d2: string)
    requires Parse(f) == Some(i)
    ensures Spells(f, i, d1, d2)
  {
    var n := Number(f, 41).value.next;
    var m := Number(f, n + 1).value.next;
    d1, d2 := f[41..n - 1], f[n + 1..m - 1];
    CutName(f, n, m);
  }

  /** A name is read as `i` if and only if it spells the fields of `i`, with at most eight digits a number. */
  lemma {:induction false} ParseExactly(f: string, i: Info)
    ensures Parse(f) == Some(i) <==> exists d1, d2 :: Spells(f, i, d1, d2)
  {
    if Parse(f) == Some(i) {
      var d1, d2 := ParsedSpells(f, i);
    }
    if exists d1, d2 :: Spells(f, i, d1, d2) {
      var d1, d2 :| Spells(f, i, d1, d2);
      ParseLayout(i.hash, d1, d2, i.tag);
    }
  }

  lemma {:induction false} EightDigits(n: nat)
    ensures |Dec(n)| <= 8 <==> n < 100000000
  {
    assert Pow10(8) == 100000000;
    if n < 100000000 {
      LengthBelow(n, 8);
    } else {
      LengthAbove(n, 8);
    }
  }

  /** Reading a printed name gives the fields back, or fails exactly when they do not fit the format. */
  lemma {:induction false} NameRoundTrip(i: Info)
    requires HexHash(i.hash)
    ensures Parse(Name(i)) == if Readable(i) then Some(i) else None
  {
    EightDigits(i.routes);
    EightDigits(i.worker);
    DecDenotes(i.routes);
    DecDenotes(i.worker);
    assert Name(i) == Layout(i.hash, Dec(i.routes), Dec(i.worker), i.tag);
    ParseLayout(i.hash, Dec(i.routes), Dec(i.worker), i.tag);
  }

  // ---------------------------------------------------------------- removing a route

  /** `chunk_remove_route`: the name the file gets, or None when it is deleted. */
  function RemoveRoute(i: Info, mask: nat): (r: Option<string>) {
    var routes := AndNot(i.routes, mask);
    if routes == 0 then None else Some(Name(i.(routes := routes)))
  }

  /** A renamed file still reads as the same chunk, with the routes that are left. */
  lemma {:induction false} RemoveThenRead(i: Info, mask: nat)
    requires HexHash(i.hash) && Readable(i) && RemoveRoute(i, mask).Some?
    ensures Parse(RemoveRoute(i, mask).value) == Some(i.(routes := AndNot(i.routes, mask)))
  {
    NameRoundTrip(i.(routes := AndNot(i.routes, mask)));
  }

  // ---------------------------------------------------------------- the move step

  /** The scan "%40s.%lu " of the move step, on names whose hash has no space in it. */
  function ScanRoutes(name: string): (r: Option<nat>) {
    if |name| <= 41 || name[40] != '.' || DigitsEnd(name, 41) == 41 then None
    else Some(ValueOf(name[41..DigitsEnd(name, 41)]))
  }

  /** The move step reads the routes that were printed, however many digits they have. */
  lemma {:induction false} ScanReadsRoutes(i: Info)
    requires HexHash(i.hash)
    ensures ScanRoutes(Name(i)) == Some(i.routes)
  {
    var f, k := Name(i), 41 + |Dec(i.routes)|;
    assert f[41..k] == Dec(i.routes);
    assert f[k] == '.';
    DigitsEndAt(f, 41, k);
    DecDenotes(i.routes);
  }
}
