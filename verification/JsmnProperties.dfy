/**
 What the tokenizer promises over whole sequences of calls: parsing can be cut
 anywhere and resumed, the token array can grow at any point, and the tokens it
 leaves behind always form a forest.
 */
module JsmnProperties {
  import opened Chars
  import opened Jsmn

  // ---------------------------------------------------------------- a longer buffer decides the same

  lemma {:induction false} ScanHexAgrees(js: string, k: nat, i: nat, n: nat)
    requires k <= |js|
    ensures var s := ScanHex(js[..k], i, n);
            s.Bad? || More(js[..k], s.at) ==> ScanHex(js, i, n) == s
    decreases n
  {
    if n != 0 && More(js[..k], i) && IsHex(js[i]) {
      ScanHexAgrees(js, k, i + 1, n - 1);
    }
  }

  lemma {:induction false} ScanStringAgrees(js: string, k: nat, i: nat)
    requires k <= |js| && !ScanString(js[..k], i).Short?
    ensures ScanString(js, i) == ScanString(js[..k], i)
    decreases |js| - i
  {
    if js[i] == '"' {
    } else if js[i] == '\\' && i + 1 < k {
      if SimpleEscape(js[i + 1]) {
        ScanStringAgrees(js, k, i + 2);
      } else if js[i + 1] == 'u' {
        ScanHexAgrees(js, k, i + 2, 4);
        if ScanHex(js[..k], i + 2, 4).Found? {
          ScanStringAgrees(js, k, ScanHex(js[..k], i + 2, 4).at);
        }
      }
    } else {
      ScanStringAgrees(js, k, i + 1);
    }
  }

  lemma {:induction false} ScanPrimitiveAgrees(js: string, k: nat, i: nat)
    requires k <= |js| && !ScanPrimitive(js[..k], i).Short?
    ensures ScanPrimitive(js, i) == ScanPrimitive(js[..k], i)
    decreases |js| - i
  {
    if !EndsPrimitive(js[i]) && Printable(js[i]) {
      ScanPrimitiveAgrees(js, k, i + 1);
    }
  }

  /** A step taken, or refused as invalid, on a prefix is the same on the whole buffer. */
  lemma {:induction false} StepAgrees(js: string, k: nat, c: nat, cap: nat, p: Parser)
    requires Links(p) && k <= |js| && c <= cap && More(js[..k], p.pos)
    ensures var o := Step(js[..k], c, p);
            o.Next? || o == Stop(Inval) ==> Step(js, cap, p) == o
  {
    if js[p.pos] == '"' {
      if !ScanString(js[..k], p.pos + 1).Short? {
        ScanStringAgrees(js, k, p.pos + 1);
      }
    } else if StartsPrimitive(js[p.pos]) {
      if !ScanPrimitive(js[..k], p.pos).Short? {
        ScanPrimitiveAgrees(js, k, p.pos);
      }
    }
  }

  /** A call on a prefix with fewer tokens, whatever it returned, changes nothing for the next. */
  lemma {:induction false} Resume(js: string, k: nat, c: nat, cap: nat, p: Parser)
    requires Links(p) && k <= |js| && c <= cap
    ensures Run(js, cap, Run(js[..k], c, p).0) == Run(js, cap, p)
    decreases |js| - p.pos
  {
    if More(js[..k], p.pos) {
      StepAgrees(js, k, c, cap, p);
      StepKeepsLinks(js[..k], c, p);
      match Step(js[..k], c, p)
      case Stop(_) =>
      case Next(q) => Resume(js, k, c, cap, q);
    }
  }

  /** Invalid on a prefix is invalid on the whole. */
  lemma {:induction false} InvalidPrefix(js: string, k: nat, c: nat, cap: nat, p: Parser)
    requires Links(p) && k <= |js| && c <= cap
    requires Run(js[..k], c, p).1 == Inval
    ensures Run(js, cap, p).1 == Inval
    decreases |js| - p.pos
  {
    assert More(js[..k], p.pos);
    StepAgrees(js, k, c, cap, p);
    StepKeepsLinks(js[..k], c, p);
    match Step(js[..k], c, p)
    case Stop(_) =>
    case Next(q) => InvalidPrefix(js, k, c, cap, q);
  }

  // ---------------------------------------------------------------- enough tokens

  /** More room does not change a call that did not run out of it. */
  lemma {:induction false} MoreRoom(js: string, cap: nat, more: nat, p: Parser)
    requires Links(p) && cap <= more && Run(js, cap, p).1 != NoMem
    ensures Run(js, more, p) == Run(js, cap, p)
    decreases |js| - p.pos
  {
    if More(js, p.pos) {
      StepKeepsLinks(js, cap, p);
      match Step(js, cap, p)
      case Stop(_) =>
      case Next(q) => MoreRoom(js, cap, more, q);
    }
  }

  /** One token per character is always enough. */
  lemma {:induction false} NeverOutOfTokens(js: string, cap: nat, p: Parser)
    requires Links(p) && |js| <= cap && |p.toks| <= p.pos
    ensures Run(js, cap, p).1 != NoMem
    ensures |Run(js, cap, p).0.toks| <= Run(js, cap, p).0.pos
    decreases |js| - p.pos
  {
    if More(js, p.pos) {
      StepKeepsLinks(js, cap, p);
      match Step(js, cap, p)
      case Stop(_) =>
      case Next(q) => NeverOutOfTokens(js, cap, q);
    }
  }

  /** Running out of tokens means that every token is in use, and none beyond the position. */
  lemma {:induction false} OutOfTokens(js: string, cap: nat, p: Parser)
    requires Links(p) && |p.toks| <= p.pos && |p.toks| <= cap
    ensures var (q, r) := Run(js, cap, p);
            |q.toks| <= q.pos && |q.toks| <= cap && (r == NoMem ==> cap == |q.toks| < |js|)
    decreases |js| - p.pos
  {
    if More(js, p.pos) {
      StepKeepsLinks(js, cap, p);
      match Step(js, cap, p)
      case Stop(_) =>
      case Next(q) => OutOfTokens(js, cap, q);
    }
  }

  // ---------------------------------------------------------------- any schedule of calls

  /** An earlier call: how much of the message had arrived, how many tokens there were. */
  datatype Call = Call(len: nat, cap: nat)

  predicate CallsBefore(js: string, cap: nat, cs: seq<Call>) {
    forall i :: 0 <= i < |cs| ==> cs[i].len <= |js| && cs[i].cap <= cap
  }

  function After(js: string, cs: seq<Call>, p: Parser): (q: Parser)
    requires Links(p)
    requires forall i :: 0 <= i < |cs| ==> cs[i].len <= |js|
    ensures Links(q)
  {
    if cs == [] then p else After(js, cs[1..], Run(js[..cs[0].len], cs[0].cap, p).0)
  }

  lemma {:induction false} EarlierCallsDoNotMatter(js: string, cap: nat, cs: seq<Call>, p: Parser)
    requires Links(p) && CallsBefore(js, cap, cs)
    ensures Run(js, cap, After(js, cs, p)) == Run(js, cap, p)
    decreases |cs|
  {
    if cs != [] {
      var q := Run(js[..cs[0].len], cs[0].cap, p).0;
      EarlierCallsDoNotMatter(js, cap, cs[1..], q);
      Resume(js, cs[0].len, cs[0].cap, cap, p);
    }
  }

  /**
   Incremental tokenizing is one-shot tokenizing: after any calls on any prefixes with any
   smaller token arrays, the call on the whole message leaves the parser, the tokens and the
   result of a single fresh call that had enough tokens, unless it runs out of them itself.
   */
  lemma {:induction false} IncrementalIsOneShot(js: string, cap: nat, cs: seq<Call>)
    requires CallsBefore(js, cap, cs)
    ensures var whole := Run(js, cap, After(js, cs, Init));
            whole.1 != NoMem ==> whole == Run(js, |js|, Init)
    ensures forall i :: 0 <= i < |cs| && Run(js[..cs[i].len], cs[i].cap, After(js, cs[..i], Init)).1 == Inval
              ==> Run(js, cap, After(js, cs, Init)).1 == Inval
  {
    EarlierCallsDoNotMatter(js, cap, cs, Init);
    if Run(js, cap, Init).1 != NoMem {
      if cap <= |js| {
        MoreRoom(js, cap, |js|, Init);
      } else {
        NeverOutOfTokens(js, |js|, Init);
        MoreRoom(js, |js|, cap, Init);
      }
    }
    forall i | 0 <= i < |cs| && Run(js[..cs[i].len], cs[i].cap, After(js, cs[..i], Init)).1 == Inval
      ensures Run(js, cap, After(js, cs, Init)).1 == Inval
    {
      InvalidPrefix(js, cs[i].len, cs[i].cap, cap, After(js, cs[..i], Init));
      EarlierCallsDoNotMatter(js, cap, cs[..i], Init);
    }
  }

  // ---------------------------------------------------------------- the forest

  /** How many tokens name `i` as their parent. */
  function Children(toks: seq<Token>, i: int): (n: nat) {
    if toks == [] then 0
    else Children(toks[..|toks| - 1], i) + (if toks[|toks| - 1].parent == i then 1 else 0)
  }

  predicate SameParents(a: seq<Token>, b: seq<Token>) {
    |a| == |b| && forall i :: 0 <= i < |a| ==> a[i].parent == b[i].parent
  }

  lemma {:induction false} ChildrenOfSameParents(a: seq<Token>, b: seq<Token>, i: int)
    requires SameParents(a, b)
    ensures Children(a, i) == Children(b, i)
    decreases |a|
  {
    if a != [] {
      ChildrenOfSameParents(a[..|a| - 1], b[..|b| - 1], i);
    }
  }

  lemma {:induction false} NoChildrenYet(toks: seq<Token>, i: nat)
    requires forall j :: 0 <= j < |toks| ==> toks[j].parent < j
    requires |toks| <= i + 1
    ensures Children(toks, i) == 0
    decreases |toks|
  {
    if toks != [] {
      NoChildrenYet(toks[..|toks| - 1], i);
    }
  }

  predicate Placed(t: Token, pos: nat) {
    && !t.typ.Undefined?
    && 0 <= t.start < pos
    && t.end <= pos
    && (t.end == -1 || t.start <= t.end)
    && (t.end == -1 ==> t.typ.Object? || t.typ.Array?)
  }

  predicate Forest(p: Parser) {
    && Links(p)
    && (forall i :: 0 <= i < |p.toks| ==> Placed(p.toks[i], p.pos))
    && (forall i, j :: 0 <= i < j < |p.toks| ==> p.toks[i].start < p.toks[j].start)
    && (forall i :: 0 <= i < |p.toks| ==> p.toks[i].size == Children(p.toks, i))
  }

  /** Adding one token under `super` and counting it there keeps every size right. */
  lemma {:induction false} AddingKeepsSizes(toks: seq<Token>, super: int, t: Token)
    requires forall j :: 0 <= j < |toks| ==> -1 <= toks[j].parent < j
    requires -1 <= super < |toks| && t.parent == super && t.size == 0
    requires forall i :: 0 <= i < |toks| ==> toks[i].size == Children(toks, i)
    ensures var r := Bump(toks, super) + [t];
            r == Bump(toks + [t], super) && forall i :: 0 <= i < |r| ==> r[i].size == Children(r, i)
  {
    var r := Bump(toks, super) + [t];
    forall i | 0 <= i < |r| ensures r[i].size == Children(r, i) {
      assert r[..|r| - 1] == Bump(toks, super);
      ChildrenOfSameParents(toks, Bump(toks, super), i);
      if i == |toks| {
        NoChildrenYet(r, i);
      }
    }
  }

  lemma {:induction false} ClosingKeepsSizes(toks: seq<Token>, k: nat, t: Token)
    requires k < |toks| && t.parent == toks[k].parent && t.size == toks[k].size
    requires forall i :: 0 <= i < |toks| ==> toks[i].size == Children(toks, i)
    ensures var r := toks[k := t]; forall i :: 0 <= i < |r| ==> r[i].size == Children(r, i)
  {
    var r := toks[k := t];
    forall i | 0 <= i < |r| ensures r[i].size == Children(r, i) {
      ChildrenOfSameParents(toks, r, i);
    }
  }

  lemma {:induction false} AddingKeepsForest(p: Parser, t: Token, pos: nat, super: int)
    requires Forest(p) && t.parent == p.super && t.size == 0
    requires p.pos <= t.start && Placed(t, pos) && p.pos < pos && -1 <= super <= |p.toks|
    ensures Bump(p.toks, p.super) + [t] == Bump(p.toks + [t], p.super)
    ensures Forest(Parser(pos, Bump(p.toks, p.super) + [t], super))
  {
    AddingKeepsSizes(p.toks, p.super, t);
    AddingKeepsPlaces(p, t, pos);
  }

  /** All but the sizes. */
  lemma {:induction false} AddingKeepsPlaces(p: Parser, t: Token, pos: nat)
    requires Forest(p) && t.parent == p.super && p.pos <= t.start && Placed(t, pos) && p.pos < pos
    ensures var r := Bump(p.toks, p.super) + [t];
            && (forall i :: 0 <= i < |r| ==> -1 <= r[i].parent < i && Placed(r[i], pos))
            && (forall i, j :: 0 <= i < j < |r| ==> r[i].start < r[j].start)
  {
    var r := Bump(p.toks, p.super) + [t];
    forall i | 0 <= i < |p.toks|
      ensures r[i].typ == p.toks[i].typ && r[i].start == p.toks[i].start && r[i].end == p.toks[i].end
      ensures r[i].parent == p.toks[i].parent && p.toks[i].start < t.start
    {
      assert Placed(p.toks[i], p.pos);
    }
    forall i | 0 <= i < |r| ensures -1 <= r[i].parent < i && Placed(r[i], pos) {
      assert i < |p.toks| ==> Placed(p.toks[i], p.pos);
    }
  }

  lemma {:induction false} ClosingKeepsForest(p: Parser, k: nat)
    requires Forest(p) && k < |p.toks| && IsOpen(p.toks[k])
    ensures Forest(Parser(p.pos + 1, p.toks[k := p.toks[k].(end := p.pos + 1)], p.toks[k].parent))
  {
    ClosingKeepsSizes(p.toks, k, p.toks[k].(end := p.pos + 1));
  }

  lemma {:induction false} OpenKeepsForest(cap: nat, p: Parser, typ: TokenType, q: Parser)
    requires Forest(p) && (typ.Object? || typ.Array?) && StepOpen(cap, p, typ) == Next(q)
    ensures Forest(q)
  {
    AddingKeepsForest(p, Token(typ, p.pos, -1, 0, p.super), p.pos + 1, |p.toks|);
  }

  lemma {:induction false} CloseKeepsForest(p: Parser, typ: TokenType, q: Parser)
    requires Forest(p) && StepClose(p, typ) == Next(q)
    ensures Forest(q)
  {
    var k := Climb(p.toks, |p.toks| - 1);
    if IsOpen(p.toks[k]) {
      assert q == Parser(p.pos + 1, p.toks[k := p.toks[k].(end := p.pos + 1)], p.toks[k].parent);
      ClosingKeepsForest(p, k);
    } else {
      assert q == Parser(p.pos + 1, p.toks, p.super);
      MovingKeepsForest(p, p.pos + 1, p.super);
    }
  }

  lemma {:induction false} LeafKeepsForest(cap: nat, p: Parser, t: Token, pos: nat, q: Parser)
    requires Forest(p) && t.parent == p.super && t.size == 0
    requires p.pos <= t.start && Placed(t, pos) && p.pos < pos && AddLeaf(cap, p, t, pos) == Next(q)
    ensures Forest(q)
  {
    AddingKeepsForest(p, t, pos, p.super);
  }

  lemma {:induction false} MovingKeepsForest(p: Parser, pos: nat, super: int)
    requires Forest(p) && p.pos <= pos && -1 <= super < |p.toks|
    ensures Forest(Parser(pos, p.toks, super))
  {
    assert forall i :: 0 <= i < |p.toks| ==> Placed(p.toks[i], p.pos) ==> Placed(p.toks[i], pos);
  }

  lemma {:induction false} StringKeepsForest(cap: nat, p: Parser, s: Scan, q: Parser)
    requires Forest(p) && (s.Found? ==> p.pos < s.at) && StringToken(cap, p, s) == Next(q)
    ensures Forest(q)
  {
    LeafKeepsForest(cap, p, Token(String, p.pos + 1, s.at, 0, p.super), s.at + 1, q);
  }

  lemma {:induction false} PrimitiveKeepsForest(js: string, cap: nat, p: Parser, q: Parser)
    requires Forest(p) && More(js, p.pos) && StartsPrimitive(js[p.pos]) && StepPrimitive(js, cap, p) == Next(q)
    ensures Forest(q)
  {
    assert !EndsPrimitive(js[p.pos]) && Printable(js[p.pos]);
    var e := ScanPrimitive(js, p.pos).at;
    LeafKeepsForest(cap, p, Token(Primitive, p.pos, e, 0, p.super), e, q);
  }

  lemma {:induction false} StepKeepsForest(js: string, cap: nat, p: Parser, q: Parser)
    requires Forest(p) && More(js, p.pos) && Step(js, cap, p) == Next(q)
    ensures Forest(q)
  {
    var c := js[p.pos];
    if c == '{' || c == '[' {
      OpenKeepsForest(cap, p, if c == '{' then Object else Array, q);
    } else if c == '}' || c == ']' {
      CloseKeepsForest(p, if c == '}' then Object else Array, q);
    } else if c == '"' {
      StringKeepsForest(cap, p, ScanString(js, p.pos + 1), q);
    } else if StartsPrimitive(c) {
      PrimitiveKeepsForest(js, cap, p, q);
    } else {
      MovingKeepsForest(p, q.pos, q.super);
    }
  }

  /** After any call on any input, well formed or not, the tokens form a forest. */
  lemma {:induction false} RunKeepsForest(js: string, cap: nat, p: Parser)
    requires Forest(p)
    ensures Forest(Run(js, cap, p).0)
    decreases |js| - p.pos
  {
    if More(js, p.pos) {
      StepKeepsLinks(js, cap, p);
      match Step(js, cap, p)
      case Stop(_) =>
      case Next(q) =>
        StepKeepsForest(js, cap, p, q);
        RunKeepsForest(js, cap, q);
    }
  }

  /** So they do after any schedule of calls on prefixes. */
  lemma {:induction false} CallsLeaveAForest(js: string, cs: seq<Call>, p: Parser)
    requires Forest(p)
    requires forall i :: 0 <= i < |cs| ==> cs[i].len <= |js|
    ensures Forest(After(js, cs, p))
    decreases |cs|
  {
    if cs != [] {
      RunKeepsForest(js[..cs[0].len], cs[0].cap, p);
      CallsLeaveAForest(js, cs[1..], Run(js[..cs[0].len], cs[0].cap, p).0);
    }
  }
}
