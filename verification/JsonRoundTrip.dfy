/**
 Printing then packing preserves meaning: the tokenizer and the packer, run on the
 text the printer writes for a value, give back the MessagePack encoding of it.
 */
module JsonRoundTrip {
  import opened Decimal
  import opened Folding
  import opened Jsmn
  import opened JsmnProperties
  import opened JsonValue
  import opened JsonPack

  // ---------------------------------------------------------------- the tokens of a value

  /** The tokens of `v` printed at `at`, the first of them with index `base`. */
  function Toks(v: Value, at: nat, base: nat, parent: int): (ts: seq<Token>)
    ensures |ts| >= 1
    decreases v, 1
  {
    match v
    case Str(s) => [Token(String, at + 1, at + 1 + |s|, 0, parent)]
    case Arr(items) =>
      [Token(Array, at, at + |Print(v)|, |items|, parent)] + ItemToks(items, at + 1, base + 1, base)
    case Map(es) =>
      [Token(Object, at, at + |Print(v)|, |es|, parent)] + EntriesToks(es, at + 1, base + 1, base)
    case _ => [Token(Primitive, at, at + |Print(v)|, 0, parent)]
  }

  function ItemToks(items: seq<Value>, at: nat, base: nat, parent: int): (ts: seq<Token>)
    decreases items, 0
  {
    if items == [] then []
    else
      var h := Toks(items[0], at, base, parent);
      h + ItemToks(items[1..], at + |Print(items[0])| + 2, base + |h|, parent)
  }

  function KeyTok(e: Entry, at: nat, parent: int): (t: Token) {
    Token(String, at + 1, at + |Print(e.key)| - 1, 1, parent)
  }

  function EntryToks(e: Entry, at: nat, base: nat, parent: int): (ts: seq<Token>)
    ensures |ts| >= 2
    decreases e, 2
  {
    [KeyTok(e, at, parent)] + Toks(e.val, at + |Print(e.key)| + 1, base + 1, base)
  }

  function EntriesToks(es: seq<Entry>, at: nat, base: nat, parent: int): (ts: seq<Token>)
    decreases es, 0
  {
    if es == [] then []
    else
      var h := EntryToks(es[0], at, base, parent);
      h + EntriesToks(es[1..], at + |PrintEntry(es[0])| + 2, base + |h|, parent)
  }

  /** Closed tokens whose parents are `parent` or earlier tokens of the same block. */
  predicate Block(ts: seq<Token>, base: nat, parent: int) {
    forall j :: 0 <= j < |ts| ==>
      && 0 <= ts[j].start <= ts[j].end && 0 < ts[j].end
      && !ts[j].typ.Undefined? && ts[j].size >= 0
      && (ts[j].parent == parent || base <= ts[j].parent < base + j)
  }

  lemma {:induction false} BlockConcat(a: seq<Token>, b: seq<Token>, base: nat, parent: int)
    requires Block(a, base, parent) && Block(b, base + |a|, parent)
    ensures Block(a + b, base, parent)
  {
  }

  lemma {:induction false} BlockUnder(t: Token, kids: seq<Token>, base: nat)
    requires 0 <= t.start <= t.end && 0 < t.end && !t.typ.Undefined? && t.size >= 0
    requires Block(kids, base + 1, base)
    ensures Block([t] + kids, base, t.parent)
  {
  }

  lemma {:induction false} ToksBlock(v: Value, at: nat, base: nat, parent: int)
    requires Plain(v)
    ensures Block(Toks(v, at, base, parent), base, parent)
    decreases v, 1
  {
    match v
    case Arr(items) =>
      ItemToksBlock(items, at + 1, base + 1, base);
      BlockUnder(Toks(v, at, base, parent)[0], ItemToks(items, at + 1, base + 1, base), base);
    case Map(es) =>
      EntriesToksBlock(es, at + 1, base + 1, base);
      BlockUnder(Toks(v, at, base, parent)[0], EntriesToks(es, at + 1, base + 1, base), base);
    case _ =>
  }

  lemma {:induction false} ItemToksBlock(items: seq<Value>, at: nat, base: nat, parent: int)
    requires forall i :: 0 <= i < |items| ==> Plain(items[i])
    ensures Block(ItemToks(items, at, base, parent), base, parent)
    decreases items, 0
  {
    if items != [] {
      var h := Toks(items[0], at, base, parent);
      ToksBlock(items[0], at, base, parent);
      ItemToksBlock(items[1..], at + |Print(items[0])| + 2, base + |h|, parent);
      BlockConcat(h, ItemToks(items[1..], at + |Print(items[0])| + 2, base + |h|, parent), base, parent);
    }
  }

  predicate PlainEntry(e: Entry) { e.key.Str? && Plain(e.key) && Plain(e.val) }

  lemma {:induction false} EntryToksBlock(e: Entry, at: nat, base: nat, parent: int)
    requires PlainEntry(e)
    ensures Block(EntryToks(e, at, base, parent), base, parent)
    decreases e, 2
  {
    ToksBlock(e.val, at + |Print(e.key)| + 1, base + 1, base);
    BlockUnder(KeyTok(e, at, parent), Toks(e.val, at + |Print(e.key)| + 1, base + 1, base), base);
  }

  lemma {:induction false} EntriesToksBlock(es: seq<Entry>, at: nat, base: nat, parent: int)
    requires forall i :: 0 <= i < |es| ==> PlainEntry(es[i])
    ensures Block(EntriesToks(es, at, base, parent), base, parent)
    decreases es, 0
  {
    if es != [] {
      var h := EntryToks(es[0], at, base, parent);
      EntryToksBlock(es[0], at, base, parent);
      EntriesToksBlock(es[1..], at + |PrintEntry(es[0])| + 2, base + |h|, parent);
      BlockConcat(h, EntriesToks(es[1..], at + |PrintEntry(es[0])| + 2, base + |h|, parent), base, parent);
    }
  }

  // ---------------------------------------------------------------- scanning printed leaves

  /** The text `s` stands at position `i`. */
  predicate At(js: string, i: nat, s: string) {
    i + |s| <= |js| && forall b {:trigger Unfold(b)} :: Unfold(b) ==> js[i..i + |s|] == s
  }

  lemma {:induction false} AtChar(js: string, i: nat, s: string, k: nat)
    requires At(js, i, s) && k < |s|
    ensures js[i + k] == s[k]
  {
    assert Unfold(true);
    assert js[i + k] == js[i..i + |s|][k];
  }

  lemma {:induction false} AtSplit(js: string, i: nat, a: string, b: string)
    requires At(js, i, a + b)
    ensures At(js, i, a) && At(js, i + |a|, b)
  {
    assert Unfold(true);
    assert js[i..i + |a|] == js[i..i + |a + b|][..|a|] == (a + b)[..|a|] == a;
    assert js[i + |a|..i + |a + b|] == js[i..i + |a + b|][|a|..] == (a + b)[|a|..] == b;
  }

  predicate PrimitiveChar(c: char) { Printable(c) && !EndsPrimitive(c) }

  lemma {:induction false} ScanPrimitiveOver(js: string, i: nat, e: nat)
    requires i <= e < |js| && EndsPrimitive(js[e])
    requires forall k :: i <= k < e ==> PrimitiveChar(js[k])
    ensures ScanPrimitive(js, i) == Found(e)
    decreases e - i
  {
    if i < e {
      assert PrimitiveChar(js[i]);
      ScanPrimitiveOver(js, i + 1, e);
    }
  }

  lemma {:induction false} ScanStringOver(js: string, i: nat, e: nat)
    requires i <= e < |js| && js[e] == '"' && PlainString(js[i..e])
    ensures ScanString(js, i) == Found(e)
    decreases e - i
  {
    if i < e {
      assert js[i] == js[i..e][0];
      assert js[i + 1..e] == js[i..e][1..];
      ScanStringOver(js, i + 1, e);
    }
  }

  predicate IsLeaf(v: Value) { v.Nil? || v.Bool? || v.Int? }

  lemma {:induction false} LeafText(v: Value)
    requires IsLeaf(v)
    ensures StartsPrimitive(Print(v)[0])
    ensures forall k :: 0 <= k < |Print(v)| ==> PrimitiveChar(Print(v)[k]) && Print(v)[k] != '.'
  {
  }

  // ---------------------------------------------------------------- parsing printed values

  /** The parser after the value, with its tokens added under the superior token. */
  function Done(p: Parser, v: Value): (q: Parser)
    requires -1 <= p.super < |p.toks|
  {
    Parser(p.pos + |Print(v)|, Bump(p.toks, p.super) + Toks(v, p.pos, |p.toks|, p.super), p.super)
  }

  lemma {:induction false} LinksAfter(p: Parser, ts: seq<Token>, pos: nat, super: int, toks: seq<Token>)
    requires Links(p) && SameParents(p.toks, toks) && Block(ts, |p.toks|, p.super)
    requires -1 <= super < |toks| + |ts|
    ensures Links(Parser(pos, toks + ts, super))
  {
  }

  lemma {:induction false} DoneLinks(p: Parser, v: Value)
    requires Links(p) && Plain(v)
    ensures Links(Done(p, v))
  {
    ToksBlock(v, p.pos, |p.toks|, p.super);
    LinksAfter(p, Toks(v, p.pos, |p.toks|, p.super), 0, p.super, Bump(p.toks, p.super));
  }

  /** Room for the tokens, the text in place, and a delimiter after it. */
  predicate Ready(js: string, cap: nat, p: Parser, text: string, ts: seq<Token>) {
    && Links(p)
    && At(js, p.pos, text)
    && |p.toks| + |ts| <= cap
  }

  predicate DelimiterAt(js: string, i: nat) { i < |js| && EndsPrimitive(js[i]) }

  lemma {:induction false} ParseLeaf(js: string, cap: nat, p: Parser, v: Value)
    requires IsLeaf(v) && Plain(v) && Ready(js, cap, p, Print(v), Toks(v, p.pos, |p.toks|, p.super))
    requires PrimitiveAllowed(p) && DelimiterAt(js, p.pos + |Print(v)|)
    ensures More(js, p.pos) && Step(js, cap, p) == Next(Done(p, v))
  {
    var e := p.pos + |Print(v)|;
    LeafText(v);
    forall k | p.pos <= k < e ensures PrimitiveChar(js[k]) {
      AtChar(js, p.pos, Print(v), k - p.pos);
    }
    AtChar(js, p.pos, Print(v), 0);
    ScanPrimitiveOver(js, p.pos, e);
    AppendBump(p.toks, Token(Primitive, p.pos, e, 0, p.super), p.super);
  }

  lemma {:induction false} AppendBump(toks: seq<Token>, t: Token, super: int)
    requires -1 <= super < |toks|
    ensures Bump(toks + [t], super) == Bump(toks, super) + [t]
  {
  }

  lemma {:induction false} QuotedText(js: string, at: nat, s: string)
    requires At(js, at, "\"" + s + "\"")
    ensures js[at] == '\"' && js[at + 1 + |s|] == '\"' && js[at + 1..at + 1 + |s|] == s
  {
    AtSplit(js, at, "\"" + s, "\"");
    AtSplit(js, at, "\"", s);
    AtChar(js, at, "\"", 0);
    AtChar(js, at + 1 + |s|, "\"", 0);
    assert Unfold(true);
  }

  lemma {:induction false} ParseStr(js: string, cap: nat, p: Parser, s: string)
    requires PlainString(s) && Links(p) && |p.toks| < cap && At(js, p.pos, Print(Str(s)))
    ensures More(js, p.pos) && Step(js, cap, p) == Next(Done(p, Str(s)))
  {
    var e := p.pos + 1 + |s|;
    QuotedText(js, p.pos, s);
    ScanStringOver(js, p.pos + 1, e);
    AppendBump(p.toks, Token(String, p.pos + 1, e, 0, p.super), p.super);
  }

  // ---------------------------------------------------------------- chains of steps

  /**
   From `p` the call goes through `q`: both lead to the same end.  Folded, so that a chain of
   steps can be composed without unfolding the tokenizer.
   */
  predicate Leads(js: string, cap: nat, p: Parser, q: Parser) {
    Links(p) && Links(q) && forall b {:trigger Unfold(b)} :: Unfold(b) ==> Run(js, cap, p) == Run(js, cap, q)
  }

  lemma {:induction false} Chain(js: string, cap: nat, p: Parser, q: Parser, r: Parser)
    requires Leads(js, cap, p, q) && Leads(js, cap, q, r)
    ensures Leads(js, cap, p, r)
  {
    assert Unfold(true);
  }

  lemma {:induction false} OneStep(js: string, cap: nat, p: Parser, q: Parser)
    requires Links(p) && Links(q) && More(js, p.pos) && Step(js, cap, p) == Next(q)
    ensures Leads(js, cap, p, q)
  {
  }

  // ---------------------------------------------------------------- containers

  function AddSize(toks: seq<Token>, k: nat, n: nat): (r: seq<Token>)
    requires k < |toks|
    ensures |r| == |toks|
  {
    toks[k := toks[k].(size := toks[k].size + n)]
  }

  lemma {:induction false} ClimbReaches(toks: seq<Token>, i: nat, k: nat)
    requires k <= i < |toks| && IsOpen(toks[k])
    requires forall j :: 0 <= j < |toks| ==> -1 <= toks[j].parent < j
    requires forall j :: k < j < |toks| ==> !IsOpen(toks[j]) && k <= toks[j].parent
    ensures Climb(toks, i) == k
    decreases i
  {
    if i > k {
      ClimbReaches(toks, toks[i].parent, k);
    }
  }

  /** The parser inside a container that has just been opened. */
  function Opened(p: Parser, typ: TokenType): (q: Parser)
    requires -1 <= p.super < |p.toks|
  {
    Parser(p.pos + 1, Bump(p.toks, p.super) + [Token(typ, p.pos, -1, 0, p.super)], |p.toks|)
  }

  lemma {:induction false} OpenedLinks(p: Parser, typ: TokenType)
    requires Links(p)
    ensures Links(Opened(p, typ))
  {
  }

  /** Closing the container at `k`, whose block of closed tokens is the end of the array. */
  lemma {:induction false} CloseStep(js: string, cap: nat, p: Parser, k: nat, toks: seq<Token>, kids: seq<Token>)
    requires Links(p) && p.toks == toks + kids && k + 1 == |toks|
    requires IsOpen(toks[k]) && Block(kids, k + 1, k)
    requires More(js, p.pos) && js[p.pos] == (if toks[k].typ.Object? then '}' else ']')
    requires toks[k].typ.Object? || toks[k].typ.Array?
    ensures Step(js, cap, p) ==
            Next(Parser(p.pos + 1, toks[k := toks[k].(end := p.pos + 1)] + kids, toks[k].parent))
  {
    forall j | k < j < |p.toks| ensures !IsOpen(p.toks[j]) && k <= p.toks[j].parent {
      assert p.toks[j] == kids[j - k - 1];
    }
    ClimbReaches(p.toks, |p.toks| - 1, k);
    assert p.toks[k] == toks[k];
    assert p.toks[k := toks[k].(end := p.pos + 1)] == toks[k := toks[k].(end := p.pos + 1)] + kids;
  }

  lemma {:induction false} OpenRun(js: string, cap: nat, p: Parser, typ: TokenType)
    requires Links(p) && |p.toks| < cap && (typ.Object? || typ.Array?)
    requires p.pos < |js| && js[p.pos] == (if typ.Object? then '{' else '[')
    ensures Leads(js, cap, p, Opened(p, typ))
  {
    OpenedLinks(p, typ);
    OneStep(js, cap, p, Opened(p, typ));
  }

  lemma {:induction false} CloseRun(js: string, cap: nat, p: Parser, k: nat, toks: seq<Token>, kids: seq<Token>,
                                    q: Parser)
    requires Links(p) && p.toks == toks + kids && k + 1 == |toks|
    requires IsOpen(toks[k]) && Block(kids, k + 1, k)
    requires p.pos < |js| && js[p.pos] == (if toks[k].typ.Object? then '}' else ']')
    requires toks[k].typ.Object? || toks[k].typ.Array?
    requires Links(q)
    requires q == Parser(p.pos + 1, toks[k := toks[k].(end := p.pos + 1)] + kids, toks[k].parent)
    ensures Leads(js, cap, p, q)
  {
    CloseStep(js, cap, p, k, toks, kids);
    OneStep(js, cap, p, q);
  }

  lemma {:induction false} ContainerText(js: string, at: nat, open: char, text: string, close: char)
    requires At(js, at, [open] + text + [close])
    ensures js[at] == open && At(js, at + 1, text)
    ensures at + 1 + |text| < |js| && js[at + 1 + |text|] == close
  {
    AtSplit(js, at, [open] + text, [close]);
    AtSplit(js, at, [open], text);
    AtChar(js, at, [open], 0);
    AtChar(js, at + 1 + |text|, [close], 0);
  }

  /** The parser after the items of the array at `p.super`. */
  function ItemsDone(p: Parser, items: seq<Value>): (q: Parser)
    requires 0 <= p.super < |p.toks|
  {
    Parser(p.pos + |PrintItems(items)|,
           AddSize(p.toks, p.super, |items|) + ItemToks(items, p.pos, |p.toks|, p.super), p.super)
  }

  /** After a separator the parser is back at the container and two characters on. */
  lemma {:induction false} SeparatorSteps(js: string, cap: nat, p: Parser, q: Parser)
    requires Links(p) && Links(q) && At(js, p.pos, ", ") && StepComma(p) == Next(q)
    ensures Leads(js, cap, p, q.(pos := q.pos + 1))
  {
    AtChar(js, p.pos, ", ", 0);
    AtChar(js, p.pos, ", ", 1);
    var r := q.(pos := q.pos + 1);
    OneStep(js, cap, p, q);
    OneStep(js, cap, q, r);
    Chain(js, cap, p, q, r);
  }

  lemma {:induction false} ParseValue(js: string, cap: nat, p: Parser, v: Value)
    requires Plain(v) && Ready(js, cap, p, Print(v), Toks(v, p.pos, |p.toks|, p.super))
    requires PrimitiveAllowed(p) && (IsLeaf(v) ==> DelimiterAt(js, p.pos + |Print(v)|))
    ensures Leads(js, cap, p, Done(p, v))
    decreases v, 1
  {
    DoneLinks(p, v);
    match v
    case Str(s) =>
      ParseStr(js, cap, p, s);
      OneStep(js, cap, p, Done(p, v));
    case Arr(items) => ParseArray(js, cap, p, items);
    case Map(es) => ParseMap(js, cap, p, es);
    case _ =>
      ParseLeaf(js, cap, p, v);
      OneStep(js, cap, p, Done(p, v));
  }

  lemma {:induction false} ArrayReady(js: string, cap: nat, p: Parser, items: seq<Value>)
    requires Ready(js, cap, p, Print(Arr(items)), Toks(Arr(items), p.pos, |p.toks|, p.super))
    ensures var p1, end := Opened(p, Array), p.pos + 1 + |PrintItems(items)|;
            && Ready(js, cap, p1, PrintItems(items), ItemToks(items, p1.pos, |p1.toks|, p1.super))
            && js[p.pos] == '[' && end < |js| && js[end] == ']' && |Print(Arr(items))| == |PrintItems(items)| + 2
  {
    ContainerText(js, p.pos, '[', PrintItems(items), ']');
    OpenedLinks(p, Array);
  }

  lemma {:induction false} ParseArray(js: string, cap: nat, p: Parser, items: seq<Value>)
    requires Plain(Arr(items))
    requires Ready(js, cap, p, Print(Arr(items)), Toks(Arr(items), p.pos, |p.toks|, p.super))
    requires Links(Done(p, Arr(items)))
    ensures Leads(js, cap, p, Done(p, Arr(items)))
    decreases items, 2
  {
    ArrayReady(js, cap, p, items);
    var k, p1 := |p.toks|, Opened(p, Array);
    var p2 := ParseAllItems(js, cap, p1, k, items);
    ItemToksBlock(items, p1.pos, k + 1, k);
    ContainerRun(js, cap, p, p2, Arr(items), |items|, ItemToks(items, p1.pos, k + 1, k), Array);
  }

  /** Closing turns the open container and its block into the tokens of the whole value. */
  lemma {:induction false} ClosedIsDone(p: Parser, v: Value, n: nat, kids: seq<Token>, typ: TokenType)
    requires -1 <= p.super < |p.toks|
    requires Toks(v, p.pos, |p.toks|, p.super) ==
             [Token(typ, p.pos, p.pos + |Print(v)|, n, p.super)] + kids
    ensures var toks := AddSize(Opened(p, typ).toks, |p.toks|, n);
            toks[|p.toks| := toks[|p.toks|].(end := p.pos + |Print(v)|)] + kids == Done(p, v).toks
  {
    var toks := AddSize(Opened(p, typ).toks, |p.toks|, n);
    assert toks[|p.toks| := toks[|p.toks|].(end := p.pos + |Print(v)|)] ==
           Bump(p.toks, p.super) + [Token(typ, p.pos, p.pos + |Print(v)|, n, p.super)];
  }

  /** Opening a container, parsing its block and closing it parses the whole value. */
  lemma {:induction false} ContainerRun(js: string, cap: nat, p: Parser, q: Parser, v: Value, n: nat,
                                        kids: seq<Token>, typ: TokenType)
    requires Links(p) && Links(Done(p, v)) && (typ.Object? || typ.Array?) && |p.toks| < cap
    requires p.pos < |js| && js[p.pos] == (if typ.Object? then '{' else '[')
    requires Leads(js, cap, Opened(p, typ), q)
    requires Toks(v, p.pos, |p.toks|, p.super) == [Token(typ, p.pos, p.pos + |Print(v)|, n, p.super)] + kids
    requires Block(kids, |p.toks| + 1, |p.toks|)
    requires q.toks == AddSize(Opened(p, typ).toks, |p.toks|, n) + kids && q.pos + 1 == p.pos + |Print(v)|
    requires q.pos < |js| && js[q.pos] == (if typ.Object? then '}' else ']')
    ensures Leads(js, cap, p, Done(p, v))
  {
    OpenRun(js, cap, p, typ);
    ClosedIsDone(p, v, n, kids, typ);
    CloseRun(js, cap, q, |p.toks|, AddSize(Opened(p, typ).toks, |p.toks|, n), kids, Done(p, v));
    Chain(js, cap, p, Opened(p, typ), q);
    Chain(js, cap, p, q, Done(p, v));
  }

  /** Where the pieces of a printed list stand: its head, a separator and the rest, if there is more. */
  lemma {:induction false} ListText(js: string, at: nat, text: string, h: string, more: bool, rest: string)
    requires text == h + (if more then ", " + rest else "")
    requires At(js, at, text) && DelimiterAt(js, at + |text|)
    ensures At(js, at, h) && DelimiterAt(js, at + |h|)
    ensures if more then At(js, at + |h|, ", ") && At(js, at + |h| + 2, rest) && |text| == |h| + 2 + |rest|
            else |text| == |h|
  {
    if more {
      RestText(js, at, h, rest);
    } else {
      assert h + "" == h;
    }
  }

  lemma {:induction false} RestText(js: string, at: nat, h: string, rest: string)
    requires At(js, at, h + (", " + rest))
    ensures At(js, at, h) && At(js, at + |h|, ", ") && At(js, at + |h| + 2, rest) && js[at + |h|] == ','
  {
    AtSplit(js, at, h, ", " + rest);
    AtSplit(js, at + |h|, ", ", rest);
    AtChar(js, at + |h|, ", ", 0);
  }

  lemma {:induction false} ItemsForm(items: seq<Value>)
    requires items != []
    ensures PrintItems(items) == Print(items[0]) + (if |items| > 1 then ", " + PrintItems(items[1..]) else "")
  {
    assert |items| == 1 ==> items[1..] == [];
  }

  lemma {:induction false} ItemsText(js: string, at: nat, items: seq<Value>)
    requires items != [] && At(js, at, PrintItems(items)) && DelimiterAt(js, at + |PrintItems(items)|)
    ensures var next := at + |Print(items[0])|;
            && At(js, at, Print(items[0])) && DelimiterAt(js, next)
            && (|items| == 1 ==> next == at + |PrintItems(items)|)
            && (|items| > 1 ==>
                  && At(js, next, ", ") && At(js, next + 2, PrintItems(items[1..]))
                  && next + 2 + |PrintItems(items[1..])| == at + |PrintItems(items)|)
  {
    ItemsForm(items);
    ListText(js, at, PrintItems(items), Print(items[0]), |items| > 1, PrintItems(items[1..]));
  }

  lemma {:induction false} ParseAllItems(js: string, cap: nat, p: Parser, k: nat, items: seq<Value>)
    returns (q: Parser)
    requires forall i :: 0 <= i < |items| ==> Plain(items[i])
    requires p.super == k < |p.toks| && p.toks[k].typ.Array?
    requires Ready(js, cap, p, PrintItems(items), ItemToks(items, p.pos, |p.toks|, k))
    requires DelimiterAt(js, p.pos + |PrintItems(items)|)
    ensures Leads(js, cap, p, q)
    ensures q.pos == p.pos + |PrintItems(items)|
    ensures q.toks == AddSize(p.toks, k, |items|) + ItemToks(items, p.pos, |p.toks|, k)
    decreases items, 1
  {
    ParseItems(js, cap, p, items);
    q := ItemsDone(p, items);
  }

  lemma {:induction false} ParseItems(js: string, cap: nat, p: Parser, items: seq<Value>)
    requires forall i :: 0 <= i < |items| ==> Plain(items[i])
    requires 0 <= p.super < |p.toks| && p.toks[p.super].typ.Array?
    requires Ready(js, cap, p, PrintItems(items), ItemToks(items, p.pos, |p.toks|, p.super))
    requires DelimiterAt(js, p.pos + |PrintItems(items)|)
    ensures Leads(js, cap, p, ItemsDone(p, items))
    decreases items, 0
  {
    if items == [] {
      assert ItemsDone(p, items) == p;
    } else {
      FirstItemReady(js, cap, p, items);
      ParseValue(js, cap, p, items[0]);
      var q := Done(p, items[0]);
      if |items| == 1 {
        LastItem(p, items);
      } else {
        var r := q.(pos := q.pos + 2);
        ItemsChain(p, items);
        MoreItemsReady(js, cap, p, items);
        ParseItems(js, cap, r, items[1..]);
        Chain(js, cap, p, q, r);
        Chain(js, cap, p, r, ItemsDone(p, items));
      }
    }
  }

  lemma {:induction false} FirstItemReady(js: string, cap: nat, p: Parser, items: seq<Value>)
    requires items != [] && 0 <= p.super < |p.toks| && p.toks[p.super].typ.Array?
    requires Ready(js, cap, p, PrintItems(items), ItemToks(items, p.pos, |p.toks|, p.super))
    requires DelimiterAt(js, p.pos + |PrintItems(items)|)
    ensures Ready(js, cap, p, Print(items[0]), Toks(items[0], p.pos, |p.toks|, p.super))
    ensures DelimiterAt(js, p.pos + |Print(items[0])|) && PrimitiveAllowed(p)
  {
    ItemsText(js, p.pos, items);
  }

  lemma {:induction false} MoreItemsReady(js: string, cap: nat, p: Parser, items: seq<Value>)
    requires |items| > 1 && 0 <= p.super < |p.toks| && p.toks[p.super].typ.Array?
    requires Ready(js, cap, p, PrintItems(items), ItemToks(items, p.pos, |p.toks|, p.super))
    requires DelimiterAt(js, p.pos + |PrintItems(items)|) && Links(Done(p, items[0]))
    ensures var q := Done(p, items[0]);
            var r := q.(pos := q.pos + 2);
            && Leads(js, cap, q, r)
            && Ready(js, cap, r, PrintItems(items[1..]), ItemToks(items[1..], r.pos, |r.toks|, r.super))
            && DelimiterAt(js, r.pos + |PrintItems(items[1..])|)
  {
    ItemsText(js, p.pos, items);
    ItemsChain(p, items);
    var q := Done(p, items[0]);
    CommaInArray(js, cap, q);
    RestReady(js, cap, q, q.(pos := q.pos + 2), PrintItems(items[1..]),
              ItemToks(items[1..], q.pos + 2, |q.toks|, q.super));
  }

  /** The parser past a separator, once what has to follow is in place. */
  lemma {:induction false} RestReady(js: string, cap: nat, q: Parser, r: Parser, rest: string, ts: seq<Token>)
    requires Links(q) && r == q.(pos := q.pos + 2, super := r.super) && -1 <= r.super < |q.toks|
    requires At(js, q.pos + 2, rest) && |q.toks| + |ts| <= cap
    ensures Ready(js, cap, r, rest, ts)
  {
  }

  lemma {:induction false} CommaInArray(js: string, cap: nat, q: Parser)
    requires Links(q) && 0 <= q.super && q.toks[q.super].typ.Array? && At(js, q.pos, ", ")
    ensures Leads(js, cap, q, q.(pos := q.pos + 2))
  {
    SeparatorSteps(js, cap, q, q.(pos := q.pos + 1));
  }

  lemma {:induction false} LastItem(p: Parser, items: seq<Value>)
    requires 0 <= p.super < |p.toks| && |items| == 1
    ensures ItemsDone(p, items) == Done(p, items[0])
  {
    assert Bump(p.toks, p.super) == AddSize(p.toks, p.super, 1);
    var ts := Toks(items[0], p.pos, |p.toks|, p.super);
    assert ItemToks(items, p.pos, |p.toks|, p.super) == ts + [] == ts;
    assert PrintItems(items) == Print(items[0]) + "" == Print(items[0]);
  }

  lemma {:induction false} ItemsChain(p: Parser, items: seq<Value>)
    requires 0 <= p.super < |p.toks| && |items| > 1
    ensures var q := Done(p, items[0]);
            var r := q.(pos := q.pos + 2);
            && ItemsDone(r, items[1..]) == ItemsDone(p, items)
            && |r.toks| + |ItemToks(items[1..], r.pos, |r.toks|, r.super)| ==
               |p.toks| + |ItemToks(items, p.pos, |p.toks|, p.super)|
            && r.toks[p.super].typ == p.toks[p.super].typ
  {
    var k, h, rest := p.super, items[0], items[1..];
    var q := Done(p, h);
    var ts := Toks(h, p.pos, |p.toks|, k);
    var more := ItemToks(rest, q.pos + 2, |q.toks|, k);
    assert ItemToks(items, p.pos, |p.toks|, k) == ts + more;
    assert AddSize(q.toks, k, |rest|) == AddSize(p.toks, k, |items|) + ts;
    assert AddSize(p.toks, k, |items|) + ts + more == AddSize(p.toks, k, |items|) + (ts + more);
    assert PrintItems(items) == Print(h) + (", " + PrintItems(rest));
  }

  lemma {:induction false} MapReady(js: string, cap: nat, p: Parser, es: seq<Entry>)
    requires Ready(js, cap, p, Print(Map(es)), Toks(Map(es), p.pos, |p.toks|, p.super))
    ensures var p1, end := Opened(p, Object), p.pos + 1 + |PrintEntries(es)|;
            && Ready(js, cap, p1, PrintEntries(es), EntriesToks(es, p1.pos, |p1.toks|, p1.super))
            && js[p.pos] == '{' && end < |js| && js[end] == '}' && |Print(Map(es))| == |PrintEntries(es)| + 2
  {
    ContainerText(js, p.pos, '{', PrintEntries(es), '}');
    OpenedLinks(p, Object);
  }

  lemma {:induction false} ParseMap(js: string, cap: nat, p: Parser, es: seq<Entry>)
    requires Plain(Map(es))
    requires Ready(js, cap, p, Print(Map(es)), Toks(Map(es), p.pos, |p.toks|, p.super))
    requires Links(Done(p, Map(es)))
    ensures Leads(js, cap, p, Done(p, Map(es)))
    decreases es, 3
  {
    MapReady(js, cap, p, es);
    var k, p1 := |p.toks|, Opened(p, Object);
    var p2 := ParseEntries(js, cap, p1, k, es);
    EntriesToksBlock(es, p1.pos, k + 1, k);
    ContainerRun(js, cap, p, p2, Map(es), |es|, EntriesToks(es, p1.pos, k + 1, k), Object);
  }

  /** A key, a colon and a value; the superior token is then the key. */
  lemma {:induction false} ParseEntry(js: string, cap: nat, p: Parser, e: Entry)
    requires PlainEntry(e) && 0 <= p.super < |p.toks| && p.toks[p.super].typ.Object?
    requires Ready(js, cap, p, PrintEntry(e), EntryToks(e, p.pos, |p.toks|, p.super))
    requires DelimiterAt(js, p.pos + |PrintEntry(e)|)
    ensures Leads(js, cap, p, EntryDone(p, e))
    decreases e, 2
  {
    ParseColon(js, cap, p, e);
    EntryValueReady(js, cap, p, e);
    EntryIsDone(p, e);
    var p2 := KeyDone(p, e.key);
    ParseValue(js, cap, p2, e.val);
    Chain(js, cap, p, p2, EntryDone(p, e));
  }

  /** The parser after a key and its colon. */
  function KeyDone(p: Parser, key: Value): (q: Parser)
    requires 0 <= p.super < |p.toks|
  {
    Done(p, key).(pos := p.pos + |Print(key)| + 1, super := |p.toks|)
  }

  lemma {:induction false} ParseColon(js: string, cap: nat, p: Parser, e: Entry)
    requires PlainEntry(e) && 0 <= p.super < |p.toks| && Links(p) && |p.toks| < cap && At(js, p.pos, PrintEntry(e))
    ensures Leads(js, cap, p, KeyDone(p, e.key))
  {
    EntryText(js, p.pos, e);
    ParseKey(js, cap, p, e.key);
    ColonRun(js, cap, Done(p, e.key));
    Chain(js, cap, p, Done(p, e.key), KeyDone(p, e.key));
  }

  lemma {:induction false} EntryValueReady(js: string, cap: nat, p: Parser, e: Entry)
    requires PlainEntry(e) && 0 <= p.super < |p.toks|
    requires Ready(js, cap, p, PrintEntry(e), EntryToks(e, p.pos, |p.toks|, p.super))
    requires DelimiterAt(js, p.pos + |PrintEntry(e)|) && Links(KeyDone(p, e.key))
    ensures var p2 := KeyDone(p, e.key);
            && Ready(js, cap, p2, Print(e.val), Toks(e.val, p2.pos, |p2.toks|, p2.super))
            && PrimitiveAllowed(p2) && DelimiterAt(js, p2.pos + |Print(e.val)|)
  {
    EntryText(js, p.pos, e);
    EntryIsDone(p, e);
  }

  lemma {:induction false} ParseKey(js: string, cap: nat, p: Parser, key: Value)
    requires key.Str? && PlainString(key.s) && Links(p) && |p.toks| < cap && At(js, p.pos, Print(key))
    ensures Leads(js, cap, p, Done(p, key))
  {
    ParseStr(js, cap, p, key.s);
    DoneLinks(p, key);
    OneStep(js, cap, p, Done(p, key));
  }

  lemma {:induction false} EntryText(js: string, at: nat, e: Entry)
    requires At(js, at, PrintEntry(e))
    ensures var colon := at + |Print(e.key)|;
            && At(js, at, Print(e.key)) && js[colon] == ':' && At(js, colon + 1, Print(e.val))
            && colon + 1 + |Print(e.val)| == at + |PrintEntry(e)|
  {
    AtSplit(js, at, Print(e.key) + ":", Print(e.val));
    AtSplit(js, at, Print(e.key), ":");
    AtChar(js, at + |Print(e.key)|, ":", 0);
  }

  lemma {:induction false} ColonRun(js: string, cap: nat, p: Parser)
    requires Links(p) && p.pos < |js| && js[p.pos] == ':'
    ensures Leads(js, cap, p, p.(pos := p.pos + 1, super := |p.toks| - 1))
  {
    OneStep(js, cap, p, p.(pos := p.pos + 1, super := |p.toks| - 1));
  }

  function EntryDone(p: Parser, e: Entry): (q: Parser)
    requires 0 <= p.super < |p.toks|
  {
    Parser(p.pos + |PrintEntry(e)|,
           AddSize(p.toks, p.super, 1) + EntryToks(e, p.pos, |p.toks|, p.super), |p.toks|)
  }

  lemma {:induction false} EntryIsDone(p: Parser, e: Entry)
    requires 0 <= p.super < |p.toks| && e.key.Str?
    ensures var p1 := Done(p, e.key);
            var p2 := KeyDone(p, e.key);
            && |p1.toks| == |p.toks| + 1 && p1.toks[|p.toks|].typ.String? && p1.toks[|p.toks|].size == 0
            && Done(p2, e.val) == EntryDone(p, e)
            && |p2.toks| + |Toks(e.val, p2.pos, |p2.toks|, p2.super)| ==
               |p.toks| + |EntryToks(e, p.pos, |p.toks|, p.super)|
  {
    KeyIsDone(p, e);
    var b, sized, key := |p.toks|, AddSize(p.toks, p.super, 1), [KeyTok(e, p.pos, p.super)];
    var val := Toks(e.val, p.pos + |Print(e.key)| + 1, b + 1, b);
    assert sized + key + val == sized + (key + val);
  }

  /** The token of a key, once the value after it is counted. */
  lemma {:induction false} KeyIsDone(p: Parser, e: Entry)
    requires 0 <= p.super < |p.toks| && e.key.Str?
    ensures var p1 := Done(p, e.key);
            && |p1.toks| == |p.toks| + 1 && p1.toks[|p.toks|].typ.String? && p1.toks[|p.toks|].size == 0
            && Bump(p1.toks, |p.toks|) == AddSize(p.toks, p.super, 1) + [KeyTok(e, p.pos, p.super)]
  {
    assert Bump(p.toks, p.super) == AddSize(p.toks, p.super, 1);
  }

  lemma {:induction false} EntriesForm(es: seq<Entry>)
    requires es != []
    ensures PrintEntries(es) == PrintEntry(es[0]) + (if |es| > 1 then ", " + PrintEntries(es[1..]) else "")
  {
    assert |es| == 1 ==> es[1..] == [];
  }

  lemma {:induction false} EntriesText(js: string, at: nat, es: seq<Entry>)
    requires es != [] && At(js, at, PrintEntries(es)) && DelimiterAt(js, at + |PrintEntries(es)|)
    ensures var next := at + |PrintEntry(es[0])|;
            && At(js, at, PrintEntry(es[0])) && DelimiterAt(js, next)
            && (|es| == 1 ==> next == at + |PrintEntries(es)|)
            && (|es| > 1 ==>
                  && At(js, next, ", ") && At(js, next + 2, PrintEntries(es[1..]))
                  && next + 2 + |PrintEntries(es[1..])| == at + |PrintEntries(es)|)
  {
    EntriesForm(es);
    ListText(js, at, PrintEntries(es), PrintEntry(es[0]), |es| > 1, PrintEntries(es[1..]));
  }

  lemma {:induction false} ParseEntries(js: string, cap: nat, p: Parser, k: nat, es: seq<Entry>) returns (q: Parser)
    requires forall i :: 0 <= i < |es| ==> PlainEntry(es[i])
    requires p.super == k < |p.toks| && p.toks[k].typ.Object?
    requires Ready(js, cap, p, PrintEntries(es), EntriesToks(es, p.pos, |p.toks|, k))
    requires DelimiterAt(js, p.pos + |PrintEntries(es)|)
    ensures Leads(js, cap, p, q)
    ensures q.pos == p.pos + |PrintEntries(es)|
    ensures q.toks == AddSize(p.toks, k, |es|) + EntriesToks(es, p.pos, |p.toks|, k)
    decreases es, 0
  {
    if es == [] {
      q := p;
    } else {
      FirstEntryReady(js, cap, p, es);
      ParseEntry(js, cap, p, es[0]);
      q := EntryDone(p, es[0]);
      if |es| == 1 {
        LastEntry(p, es);
      } else {
        MoreEntriesReady(js, cap, p, es);
        EntriesChain(p, es);
        var r := q.(pos := q.pos + 2, super := k);
        Chain(js, cap, p, q, r);
        q := ParseEntries(js, cap, r, k, es[1..]);
        Chain(js, cap, p, r, q);
      }
    }
  }

  lemma {:induction false} FirstEntryReady(js: string, cap: nat, p: Parser, es: seq<Entry>)
    requires es != [] && 0 <= p.super < |p.toks|
    requires Ready(js, cap, p, PrintEntries(es), EntriesToks(es, p.pos, |p.toks|, p.super))
    requires DelimiterAt(js, p.pos + |PrintEntries(es)|)
    ensures Ready(js, cap, p, PrintEntry(es[0]), EntryToks(es[0], p.pos, |p.toks|, p.super))
    ensures DelimiterAt(js, p.pos + |PrintEntry(es[0])|)
  {
    EntriesText(js, p.pos, es);
  }

  lemma {:induction false} MoreEntriesReady(js: string, cap: nat, p: Parser, es: seq<Entry>)
    requires |es| > 1 && 0 <= p.super < |p.toks| && p.toks[p.super].typ.Object?
    requires Ready(js, cap, p, PrintEntries(es), EntriesToks(es, p.pos, |p.toks|, p.super))
    requires DelimiterAt(js, p.pos + |PrintEntries(es)|) && Links(EntryDone(p, es[0]))
    ensures var q := EntryDone(p, es[0]);
            var r := q.(pos := q.pos + 2, super := p.super);
            && Leads(js, cap, q, r) && r.toks[r.super].typ.Object?
            && Ready(js, cap, r, PrintEntries(es[1..]), EntriesToks(es[1..], r.pos, |r.toks|, r.super))
            && DelimiterAt(js, r.pos + |PrintEntries(es[1..])|)
            && r.pos + |PrintEntries(es[1..])| == p.pos + |PrintEntries(es)|
  {
    EntriesText(js, p.pos, es);
    EntriesChain(p, es);
    EntrySuper(p, es[0]);
    var q := EntryDone(p, es[0]);
    var r := q.(pos := q.pos + 2, super := p.super);
    CommaInMap(js, cap, q, p.super);
    RestReady(js, cap, q, r, PrintEntries(es[1..]), EntriesToks(es[1..], r.pos, |r.toks|, r.super));
  }

  lemma {:induction false} CommaInMap(js: string, cap: nat, q: Parser, k: nat)
    requires Links(q) && At(js, q.pos, ", ") && k < |q.toks|
    requires 0 <= q.super && q.toks[q.super].typ.String? && q.toks[q.super].parent == k
    ensures Leads(js, cap, q, q.(pos := q.pos + 2, super := k))
  {
    SeparatorSteps(js, cap, q, q.(pos := q.pos + 1, super := k));
  }

  lemma {:induction false} EntrySuper(p: Parser, e: Entry)
    requires 0 <= p.super < |p.toks|
    ensures var q := EntryDone(p, e);
            |p.toks| < |q.toks| && q.toks[p.super].typ == p.toks[p.super].typ &&
            q.toks[q.super] == KeyTok(e, p.pos, p.super)
  {
  }

  lemma {:induction false} LastEntry(p: Parser, es: seq<Entry>)
    requires 0 <= p.super < |p.toks| && |es| == 1
    ensures AddSize(p.toks, p.super, |es|) + EntriesToks(es, p.pos, |p.toks|, p.super) == EntryDone(p, es[0]).toks
    ensures |PrintEntries(es)| == |PrintEntry(es[0])|
  {
    var ts := EntryToks(es[0], p.pos, |p.toks|, p.super);
    assert EntriesToks(es, p.pos, |p.toks|, p.super) == ts + [] == ts;
    assert PrintEntries(es) == PrintEntry(es[0]) + "" == PrintEntry(es[0]);
  }

  lemma {:induction false} EntriesChain(p: Parser, es: seq<Entry>)
    requires 0 <= p.super < |p.toks| && |es| > 1
    ensures var q := EntryDone(p, es[0]);
            AddSize(q.toks, p.super, |es[1..]|) + EntriesToks(es[1..], q.pos + 2, |q.toks|, p.super) ==
            AddSize(p.toks, p.super, |es|) + EntriesToks(es, p.pos, |p.toks|, p.super)
  {
    var k, q := p.super, EntryDone(p, es[0]);
    var ts := EntryToks(es[0], p.pos, |p.toks|, k);
    var more := EntriesToks(es[1..], q.pos + 2, |q.toks|, k);
    assert EntriesToks(es, p.pos, |p.toks|, k) == ts + more;
    assert AddSize(q.toks, k, |es[1..]|) == AddSize(p.toks, k, |es|) + ts;
    assert AddSize(p.toks, k, |es|) + ts + more == AddSize(p.toks, k, |es|) + (ts + more);
  }

  // ---------------------------------------------------------------- packing the tokens of a value

  predicate Settled(js: string, t: Token) {
    InText(js, t) && !t.typ.Undefined? && t.size >= 0 && 0 < t.end && (t.typ.Primitive? ==> t.start < |js|)
  }

  /** Token by token, these are the packer calls. */
  predicate Packs(js: string, ts: seq<Token>, ev: seq<Event>) {
    |ts| == |ev| && forall i :: 0 <= i < |ts| ==> PacksTo(js, ts[i], ev[i])
  }

  predicate PacksTo(js: string, t: Token, e: Event) {
    forall b {:trigger Unfold(b)} :: Unfold(b) ==> Settled(js, t) && EventOf(js, t) == e
  }

  lemma {:induction false} PacksJoin(js: string, a: seq<Token>, b: seq<Token>, ea: seq<Event>, eb: seq<Event>,
                                     ts: seq<Token>, ev: seq<Event>)
    requires Packs(js, a, ea) && Packs(js, b, eb) && ts == a + b && ev == ea + eb
    ensures Packs(js, ts, ev)
  {
  }

  lemma {:induction false} PackIsEvents(js: string, ts: seq<Token>, ev: seq<Event>)
    requires Packs(js, ts, ev) && AllPackable(js, ts)
    ensures PackTokens(js, ts) == Buf(ev)
    decreases |ts|
  {
    if ts != [] {
      assert Unfold(true) && PacksTo(js, ts[0], ev[0]);
      assert Packs(js, ts[1..], ev[1..]) by {
        forall i | 0 <= i < |ts| - 1 ensures PacksTo(js, ts[1..][i], ev[1..][i]) {
          assert PacksTo(js, ts[i + 1], ev[i + 1]);
        }
      }
      PackIsEvents(js, ts[1..], ev[1..]);
    }
  }

  /** A run of printed digits up to a delimiter reads back as its number. */
  lemma {:induction false} DigitsRead(js: string, n: nat, at: nat)
    requires At(js, at, Dec(n)) && DelimiterAt(js, at + |Dec(n)|)
    ensures ValueOf(js[at..DigitsEnd(js, at)]) == n && '0' <= js[at] <= '9'
  {
    assert Unfold(true);
    var e := at + |Dec(n)|;
    assert js[at..e] == Dec(n) && js[at] == js[at..e][0];
    DigitsEndAt(js, at, e);
    DecDenotes(n);
  }

  lemma {:induction false} MinusEvent(js: string, n: nat, at: nat)
    requires At(js, at, "-" + Dec(n)) && DelimiterAt(js, at + 1 + |Dec(n)|)
    ensures Atol(js, at) == Clamp(0 - n)
  {
    AtSplit(js, at, "-", Dec(n));
    AtChar(js, at, "-", 0);
    DigitsRead(js, n, at + 1);
  }

  lemma {:induction false} IntEvent(js: string, i: int, at: nat)
    requires At(js, at, PrintInt(i)) && DelimiterAt(js, at + |PrintInt(i)|)
    ensures Atol(js, at) == Clamp(i)
  {
    if i < 0 {
      MinusEvent(js, -i, at);
    } else {
      DigitsRead(js, i, at);
    }
  }

  lemma {:induction false} LeafEvent(js: string, v: Value, at: nat, base: nat, parent: int)
    requires IsLeaf(v) && At(js, at, Print(v)) && DelimiterAt(js, at + |Print(v)|)
    ensures Packs(js, Toks(v, at, base, parent), Encode(Saturate(v)))
  {
    assert Unfold(true);
    var e := at + |Print(v)|;
    LeafText(v);
    assert js[at] == js[at..e][0];
    forall k | at <= k <= e ensures js[k] != '.' {
      if k < e {
        assert js[k] == js[at..e][k - at];
      }
    }
    if v.Int? {
      IntEvent(js, v.i, at);
    }
  }

  function SatItems(items: seq<Value>): (r: seq<Value>)
    ensures |r| == |items|
  {
    seq(|items|, i requires 0 <= i < |items| => Saturate(items[i]))
  }

  function SatEntries(es: seq<Entry>): (r: seq<Entry>)
    ensures |r| == |es|
  {
    seq(|es|, i requires 0 <= i < |es| => SatEntry(es[i]))
  }

  lemma {:induction false} SatItemsSplit(items: seq<Value>)
    requires items != []
    ensures EncodeItems(SatItems(items)) == Encode(Saturate(items[0])) + EncodeItems(SatItems(items[1..]))
  {
    assert SatItems(items)[1..] == SatItems(items[1..]);
  }

  function SatEntry(e: Entry): (r: Entry) { Entry(Saturate(e.key), Saturate(e.val)) }

  lemma {:induction false} SatEntriesSplit(es: seq<Entry>)
    requires es != []
    ensures EncodeEntries(SatEntries(es)) == EncodeEntry(SatEntry(es[0])) + EncodeEntries(SatEntries(es[1..]))
  {
    assert SatEntries(es)[1..] == SatEntries(es[1..]);
  }

  lemma {:induction false} StringEvent(js: string, s: string, at: nat, size: nat, parent: int)
    requires At(js, at, Print(Str(s)))
    ensures PacksTo(js, Token(String, at + 1, at + 1 + |s|, size, parent), PackStr(s))
  {
    assert Unfold(true);
    AtSplit(js, at, "\"" + s, "\"");
    AtSplit(js, at, "\"", s);
  }

  lemma {:induction false} ValueEvents(js: string, v: Value, at: nat, base: nat, parent: int)
    requires Plain(v) && At(js, at, Print(v)) && (IsLeaf(v) ==> DelimiterAt(js, at + |Print(v)|))
    ensures Packs(js, Toks(v, at, base, parent), Encode(Saturate(v)))
    decreases v, 1
  {
    match v
    case Str(s) => StringEvent(js, s, at, 0, parent);
    case Arr(items) => ArrayEvents(js, items, at, base, parent);
    case Map(es) => MapEvents(js, es, at, base, parent);
    case _ => LeafEvent(js, v, at, base, parent);
  }

  lemma {:induction false} ArrayEncoding(items: seq<Value>)
    ensures Encode(Saturate(Arr(items))) == [PackArray(|items|)] + EncodeItems(SatItems(items))
  {
    assert Saturate(Arr(items)).items == SatItems(items);
  }

  lemma {:induction false} MapEncoding(es: seq<Entry>)
    ensures Encode(Saturate(Map(es))) == [PackMap(|es|)] + EncodeEntries(SatEntries(es))
  {
    assert Saturate(Map(es)).entries == SatEntries(es);
  }

  lemma {:induction false} HeadEvent(js: string, t: Token)
    requires (t.typ.Array? || t.typ.Object?) && 0 <= t.start < t.end <= |js| && t.size >= 0
    ensures Packs(js, [t], [if t.typ.Array? then PackArray(t.size) else PackMap(t.size)])
  {
    assert EventOf(js, t) == if t.typ.Array? then PackArray(t.size) else PackMap(t.size);
  }

  lemma {:induction false} ArrayEvents(js: string, items: seq<Value>, at: nat, base: nat, parent: int)
    requires Plain(Arr(items)) && At(js, at, Print(Arr(items)))
    ensures Packs(js, Toks(Arr(items), at, base, parent), Encode(Saturate(Arr(items))))
    decreases items, 3
  {
    var v, t := Arr(items), Token(Array, at, at + |Print(Arr(items))|, |items|, parent);
    ContainerText(js, at, '[', PrintItems(items), ']');
    ItemsEvents(js, items, at + 1, base + 1, base);
    ArrayEncoding(items);
    HeadEvent(js, t);
    PacksJoin(js, [t], ItemToks(items, at + 1, base + 1, base), [PackArray(|items|)], EncodeItems(SatItems(items)),
              Toks(v, at, base, parent), Encode(Saturate(v)));
  }

  lemma {:induction false} MapEvents(js: string, es: seq<Entry>, at: nat, base: nat, parent: int)
    requires Plain(Map(es)) && At(js, at, Print(Map(es)))
    ensures Packs(js, Toks(Map(es), at, base, parent), Encode(Saturate(Map(es))))
    decreases es, 3
  {
    var v, t := Map(es), Token(Object, at, at + |Print(Map(es))|, |es|, parent);
    ContainerText(js, at, '{', PrintEntries(es), '}');
    EntriesEvents(js, es, at + 1, base + 1, base);
    MapEncoding(es);
    HeadEvent(js, t);
    PacksJoin(js, [t], EntriesToks(es, at + 1, base + 1, base), [PackMap(|es|)], EncodeEntries(SatEntries(es)),
              Toks(v, at, base, parent), Encode(Saturate(v)));
  }

  lemma {:induction false} NoItemsEvents(js: string, items: seq<Value>, at: nat, base: nat, parent: int)
    requires items == []
    ensures Packs(js, ItemToks(items, at, base, parent), EncodeItems(SatItems(items)))
  {
  }

  lemma {:induction false} NoEntriesEvents(js: string, es: seq<Entry>, at: nat, base: nat, parent: int)
    requires es == []
    ensures Packs(js, EntriesToks(es, at, base, parent), EncodeEntries(SatEntries(es)))
  {
  }

  lemma {:induction false} ItemsEvents(js: string, items: seq<Value>, at: nat, base: nat, parent: int)
    requires forall i :: 0 <= i < |items| ==> Plain(items[i])
    requires At(js, at, PrintItems(items)) && DelimiterAt(js, at + |PrintItems(items)|)
    ensures Packs(js, ItemToks(items, at, base, parent), EncodeItems(SatItems(items)))
    decreases items, 0
  {
    if items == [] {
      NoItemsEvents(js, items, at, base, parent);
    } else {
      ItemsText(js, at, items);
      SatItemsSplit(items);
      var h, rest, at1 := Toks(items[0], at, base, parent), items[1..], at + |Print(items[0])| + 2;
      var more := ItemToks(rest, at1, base + |h|, parent);
      ValueEvents(js, items[0], at, base, parent);
      if rest != [] {
        ItemsEvents(js, rest, at1, base + |h|, parent);
      } else {
        NoItemsEvents(js, rest, at1, base + |h|, parent);
      }
      PacksJoin(js, h, more, Encode(Saturate(items[0])), EncodeItems(SatItems(rest)),
                ItemToks(items, at, base, parent), EncodeItems(SatItems(items)));
    }
  }

  lemma {:induction false} EntryEvents(js: string, e: Entry, at: nat, base: nat, parent: int)
    requires PlainEntry(e) && At(js, at, PrintEntry(e)) && DelimiterAt(js, at + |PrintEntry(e)|)
    ensures Packs(js, EntryToks(e, at, base, parent), EncodeEntry(SatEntry(e)))
    decreases e, 2
  {
    EntryText(js, at, e);
    StringEvent(js, e.key.s, at, 1, parent);
    var val := at + |Print(e.key)| + 1;
    ValueEvents(js, e.val, val, base + 1, base);
    PacksJoin(js, [KeyTok(e, at, parent)], Toks(e.val, val, base + 1, base),
              Encode(Saturate(e.key)), Encode(Saturate(e.val)),
              EntryToks(e, at, base, parent), EncodeEntry(SatEntry(e)));
  }

  lemma {:induction false} EntriesEvents(js: string, es: seq<Entry>, at: nat, base: nat, parent: int)
    requires forall i :: 0 <= i < |es| ==> PlainEntry(es[i])
    requires At(js, at, PrintEntries(es)) && DelimiterAt(js, at + |PrintEntries(es)|)
    ensures Packs(js, EntriesToks(es, at, base, parent), EncodeEntries(SatEntries(es)))
    decreases es, 0
  {
    if es == [] {
      NoEntriesEvents(js, es, at, base, parent);
    } else {
      EntriesText(js, at, es);
      SatEntriesSplit(es);
      var h, rest, at1 := EntryToks(es[0], at, base, parent), es[1..], at + |PrintEntry(es[0])| + 2;
      var more := EntriesToks(rest, at1, base + |h|, parent);
      EntryEvents(js, es[0], at, base, parent);
      if rest != [] {
        EntriesEvents(js, rest, at1, base + |h|, parent);
      } else {
        NoEntriesEvents(js, rest, at1, base + |h|, parent);
      }
      PacksJoin(js, h, more, EncodeEntry(SatEntry(es[0])), EncodeEntries(SatEntries(rest)),
                EntriesToks(es, at, base, parent), EncodeEntries(SatEntries(es)));
    }
  }

  // ---------------------------------------------------------------- the round trip

  /** The tokenizer, run on the whole text of a value that delimits itself, accepts it. */
  lemma {:induction false} WholeText(v: Value)
    requires Plain(v) && !IsLeaf(v)
    ensures var (q, r) := Run(Print(v), |Print(v)|, Init);
            q.toks == Toks(v, 0, 0, -1) && r == Count(|q.toks|)
  {
    var js, ts := Print(v), Toks(v, 0, 0, -1);
    var cap := |js| + |ts|;
    assert js[0..|js|] == js;
    ParseValue(js, cap, Init, v);
    var q := Done(Init, v);
    assert q.toks == ts;
    assert Run(js, cap, Init) == Run(js, cap, q) by { assert Unfold(true); }
    ToksBlock(v, 0, 0, -1);
    ClosedEnd(js, cap, q);
    EnoughOrMore(js, cap, Init);
  }

  /** At the end of the text with every token closed, the call returns their number. */
  lemma {:induction false} ClosedEnd(js: string, cap: nat, q: Parser)
    requires Links(q) && q.pos == |js| && Block(q.toks, 0, -1)
    ensures Run(js, cap, q) == (q, Count(|q.toks|))
  {
    assert forall i :: 0 <= i < |q.toks| ==> !IsOpen(q.toks[i]);
  }

  lemma {:induction false} ScanPrimitiveShort(js: string, i: nat)
    requires i <= |js| && forall k :: i <= k < |js| ==> PrimitiveChar(js[k])
    ensures ScanPrimitive(js, i) == Short
    decreases |js| - i
  {
    if i < |js| {
      assert PrimitiveChar(js[i]);
      ScanPrimitiveShort(js, i + 1);
    }
  }

  /** A bare number, boolean or null never ends: the strict tokenizer waits for a delimiter. */
  lemma {:induction false} BareLeafIsPartial(v: Value)
    requires IsLeaf(v)
    ensures Run(Print(v), |Print(v)|, Init) == (Init, Part)
  {
    LeafText(v);
    ScanPrimitiveShort(Print(v), 0);
  }

  /**
   Packing the printed text of a value yields its encoding with the integers saturated to
   signed 64 bits, unless the value is a bare number, boolean or null.  So printing then
   packing preserves the value exactly when it is not one of those and its integers fit.
   */
  lemma {:induction false} PrintThenPack(v: Value)
    requires Plain(v)
    ensures PackMessage(Print(v)) == if IsLeaf(v) then Null else Buf(Encode(Saturate(v)))
    ensures PackMessage(Print(v)) == Buf(Encode(v)) <==> !IsLeaf(v) && IntsFit(v)
  {
    var js := Print(v);
    if IsLeaf(v) {
      BareLeafIsPartial(v);
    } else {
      WholeText(v);
      assert js[0..|js|] == js;
      ValueEvents(js, v, 0, 0, -1);
      TokensArePackable(js, |js|);
      PackIsEvents(js, Toks(v, 0, 0, -1), Encode(Saturate(v)));
      SaturateFixes(v);
      if Encode(Saturate(v)) == Encode(v) {
        EncodeInjective(Saturate(v), v);
      }
    }
  }

  /** Reading the packed message back gives the value that was printed. */
  lemma {:induction false} PrintPackUnpack(v: Value)
    requires Plain(v) && !IsLeaf(v) && IntsFit(v)
    ensures PackMessage(Print(v)).Buf? && Decode(PackMessage(Print(v)).ev) == Got(v, [])
  {
    PrintThenPack(v);
    DecodeEncode(v, []);
    assert Encode(v) + [] == Encode(v);
  }
}
