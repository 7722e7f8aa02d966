/**
 JSON to MessagePack (src/flb_pack.c): the token-growth loop around the
 tokenizer, the loop that turns the flat token array into packer calls, and the
 one-message entry point.
 */
module JsonPack {
  import opened Decimal
  import opened Jsmn
  import opened JsmnProperties
  import opened JsonValue

  // ---------------------------------------------------------------- one token

  /** `atol` on the text at `i`, which starts with a digit or a minus sign. */
  function Atol(js: string, i: nat): (n: int)
    requires i <= |js|
  {
    if i < |js| && js[i] == '-' then Clamp(0 - ValueOf(js[i + 1..DigitsEnd(js, i + 1)]))
    else Clamp(ValueOf(js[i..DigitsEnd(js, i)]))
  }

  /** A dot in the token or in the character after it. */
  predicate HasDot(js: string, start: nat, end: nat) {
    exists k :: start <= k <= end && k < |js| && js[k] == '.'
  }

  predicate InText(js: string, t: Token) { 0 <= t.start <= t.end <= |js| }

  function EventOf(js: string, t: Token): (e: Event)
    requires InText(js, t) && !t.typ.Undefined? && t.size >= 0
    requires t.typ.Primitive? ==> t.start < |js|
  {
    match t.typ
    case Object => PackMap(t.size)
    case Array => PackArray(t.size)
    case String => PackStr(js[t.start..t.end])
    case Primitive =>
      if js[t.start] == 'f' then PackBool(false)
      else if js[t.start] == 't' then PackBool(true)
      else if js[t.start] == 'n' then PackNil
      else if HasDot(js, t.start, t.end) then PackDouble(js[t.start..])
      else PackInt(Atol(js, t.start))
  }

  // ---------------------------------------------------------------- all tokens

  datatype Packed = Null | Buf(ev: seq<Event>)

  /** The loop stops at a token that is unset or still open. */
  predicate Unset(t: Token) { t.start == -1 || t.end == -1 || (t.start == 0 && t.end == 0) }

  predicate Packable(js: string, t: Token) {
    !Unset(t) ==> InText(js, t) && t.size >= 0 && (t.typ.Primitive? ==> t.start < |js|)
  }

  predicate AllPackable(js: string, toks: seq<Token>) {
    forall i :: 0 <= i < |toks| ==> Packable(js, toks[i])
  }

  function PackTokens(js: string, toks: seq<Token>): (r: Packed)
    requires AllPackable(js, toks)
  {
    if toks == [] || Unset(toks[0]) then Buf([])
    else if toks[0].typ.Undefined? then Null
    else
      match PackTokens(js, toks[1..])
      case Null => Null
      case Buf(ev) => Buf([EventOf(js, toks[0])] + ev)
  }

  method IsFloat(js: string, start: nat, end: nat) returns (b: bool)
    ensures b == HasDot(js, start, end)
  {
    var p := start;
    while p <= end && p < |js|
      invariant start <= p
      invariant forall k :: start <= k < p && k <= end && k < |js| ==> js[k] != '.'
    {
      if js[p] == '.' {
        return true;
      }
      p := p + 1;
    }
    return false;
  }

  method PackToken(js: string, t: Token) returns (e: Event)
    requires InText(js, t) && !t.typ.Undefined? && t.size >= 0
    requires t.typ.Primitive? ==> t.start < |js|
    ensures e == EventOf(js, t)
  {
    match t.typ
    case Object => e := PackMap(t.size);
    case Array => e := PackArray(t.size);
    case String => e := PackStr(js[t.start..t.end]);
    case Primitive =>
      var p := js[t.start];
      if p == 'f' {
        e := PackBool(false);
      } else if p == 't' {
        e := PackBool(true);
      } else if p == 'n' {
        e := PackNil;
      } else {
        var float := IsFloat(js, t.start, t.end);
        e := if float then PackDouble(js[t.start..]) else PackInt(Atol(js, t.start));
      }
  }

  /** `tokens_to_msgpack` over the first `size` tokens. */
  method TokensToMsgpack(js: string, tokens: array<Token>, size: nat) returns (r: Packed)
    requires size <= tokens.Length && AllPackable(js, tokens[..size])
    ensures r == PackTokens(js, tokens[..size])
  {
    var out: seq<Event> := [];
    var i := 0;
    ghost var toks := tokens[..size];
    assert toks[0..] == toks;
    while i < size
      invariant i <= size && PackTokens(js, toks) == Before(out, PackTokens(js, toks[i..]))
    {
      var t := tokens[i];
      assert toks[i..][0] == t && toks[i..][1..] == toks[i + 1..];
      assert Packable(js, toks[i]);
      if t.start == -1 || t.end == -1 || (t.start == 0 && t.end == 0) {
        break;
      }
      if t.typ.Undefined? {
        return Null;
      }
      var e := PackToken(js, t);
      BeforeMore(out, e, PackTokens(js, toks[i + 1..]));
      out := out + [e];
      i := i + 1;
    }
    return Buf(out);
  }

  /** Events that have been emitted before the rest. */
  function Before(out: seq<Event>, rest: Packed): (r: Packed) {
    match rest case Null => Null case Buf(ev) => Buf(out + ev)
  }

  lemma BeforeMore(out: seq<Event>, e: Event, rest: Packed)
    ensures Before(out, Before([e], rest)) == Before(out + [e], rest)
  {
    if rest.Buf? {
      assert out + ([e] + rest.ev) == out + [e] + rest.ev;
    }
  }

  // ---------------------------------------------------------------- the pack state

  datatype Status = Ok | JsonInval | JsonPart

  function StatusOf(r: Result): (s: Status)
    requires !r.NoMem?
  {
    match r
    case Inval => JsonInval
    case Part => JsonPart
    case Count(_) => Ok
  }

  /** What one message packs to, if it is complete and valid. */
  function PackMessage(js: string): (r: Packed) {
    NeverOutOfTokens(js, |js|, Init);
    var (q, r) := Run(js, |js|, Init);
    if r.Count? then TokensArePackable(js, |js|); PackTokens(js, q.toks) else Null
  }

  /** The parser never moves past the end of the buffer. */
  lemma {:induction false} StaysInside(js: string, cap: nat, p: Parser)
    requires Links(p) && p.pos <= |js|
    ensures Run(js, cap, p).0.pos <= |js|
    decreases |js| - p.pos
  {
    if More(js, p.pos) {
      StepKeepsLinks(js, cap, p);
      match Step(js, cap, p)
      case Stop(_) =>
      case Next(q) => StaysInside(js, cap, q);
    }
  }

  lemma TokensArePackable(js: string, cap: nat)
    ensures AllPackable(js, Run(js, cap, Init).0.toks)
  {
    RunKeepsForest(js, cap, Init);
    StaysInside(js, cap, Init);
    var q := Run(js, cap, Init).0;
    forall i | 0 <= i < |q.toks| ensures Packable(js, q.toks[i]) {
      assert Placed(q.toks[i], q.pos);
    }
  }

  /** `flb_pack_state`: a parser, a token array that grows, and the tokens counted so far. */
  class PackState {
    var parser: JsmnParser
    var tokens: array<Token>
    var tokensCount: nat

    ghost predicate Valid()
      reads this, parser, tokens
    {
      parser.Valid(tokens) && parser.toknext <= parser.pos
    }

    ghost function View(): (p: Parser)
      requires Valid()
      reads this, parser, tokens
    {
      parser.View(tokens)
    }

    constructor ()
      ensures Valid() && fresh(parser) && fresh(tokens)
      ensures View() == Init && tokensCount == 0
    {
      parser := new JsmnParser();
      tokens := new Token[256](_ => Token(Undefined, 0, 0, 0, 0));
      tokensCount := 0;
    }

    /** `realloc` to 256 more tokens; those in use are kept. */
    method Grow()
      requires Valid()
      modifies this`tokens
      ensures Valid() && fresh(tokens) && tokens.Length == old(tokens.Length) + 256
      ensures View() == old(View())
    {
      var before := tokens;
      var n := before.Length;
      tokens := new Token[n + 256](i reads before =>
        if 0 <= i < n && n == before.Length then before[i] else Token(Undefined, 0, 0, 0, 0));
      assert tokens[..parser.toknext] == before[..parser.toknext];
    }

    /** One call of the tokenizer on the current token array. */
    method ParseOnce(js: string) returns (ret: Result)
      requires Valid()
      modifies parser, tokens
      ensures Valid() && (View(), ret) == Run(js, tokens.Length, old(View()))
    {
      OutOfTokens(js, tokens.Length, View());
      ret := parser.Parse(js, tokens);
    }

    /** One turn of the growth loop; `p` is where the message was begun. */
    method GrowAndParse(js: string, ghost p: Parser) returns (ret: Result)
      requires Valid() && Links(p) && |p.toks| <= p.pos && |p.toks| <= tokens.Length
      requires View() == Run(js, tokens.Length, p).0
      modifies this`tokens, parser
      ensures Valid() && fresh(tokens) && tokens.Length == old(tokens.Length) + 256
      ensures (View(), ret) == Run(js, tokens.Length, p)
      ensures ret == NoMem ==> tokens.Length < |js|
    {
      ghost var q, cap := View(), tokens.Length + 256;
      GrowAndResume(js, tokens.Length, cap, p);
      assert Run(js, cap, q) == Run(js, cap, p);
      Grow();
      assert View() == q && tokens.Length == cap;
      ret := ParseOnce(js);
    }

    /** The growth loop: parse, and while the tokens run out, enlarge and parse on. */
    method ParseGrowing(js: string) returns (ret: Result)
      requires Valid()
      modifies this`tokens, parser, tokens
      ensures Valid() && (tokens == old(tokens) || fresh(tokens))
      ensures ret != NoMem && (View(), ret) == Run(js, tokens.Length, old(View()))
    {
      ghost var p := View();
      OutOfTokens(js, tokens.Length, p);
      ret := ParseOnce(js);
      while ret == NoMem
        invariant Valid() && (tokens == old(tokens) || fresh(tokens))
        invariant (View(), ret) == Run(js, tokens.Length, p)
        invariant ret == NoMem ==> tokens.Length < |js|
        decreases |js| - tokens.Length
      {
        ret := GrowAndParse(js, p);
      }
    }

    /**
     `json_tokenise`: however many times the token array had to grow, the parser ends as
     after one call with enough tokens.
     */
    method JsonTokenise(js: string) returns (s: Status)
      requires Valid()
      modifies this, parser, tokens
      ensures Valid() && parser == old(parser) && (tokens == old(tokens) || fresh(tokens))
      ensures Run(js, |js|, old(View())).1 != NoMem
      ensures var (q, r) := Run(js, |js|, old(View()));
              View() == q && s == StatusOf(r) &&
              tokensCount == old(tokensCount) + (if r.Count? then r.n else 0)
    {
      ghost var p := View();
      NeverOutOfTokens(js, |js|, p);
      var ret := ParseGrowing(js);
      EnoughOrMore(js, tokens.Length, p);
      if ret == Inval {
        return JsonInval;
      }
      if ret == Part {
        return JsonPart;
      }
      tokensCount := tokensCount + ret.n;
      return Ok;
    }
  }

  lemma GrowAndResume(js: string, cap: nat, more: nat, p: Parser)
    requires Links(p) && cap <= more && |p.toks| <= p.pos && |p.toks| <= more
    ensures Run(js, more, Run(js, cap, p).0) == Run(js, more, p)
    ensures Run(js, more, p).1 == NoMem ==> more < |js|
  {
    assert js[..|js|] == js;
    Resume(js, |js|, cap, more, p);
    OutOfTokens(js, more, p);
  }

  lemma EnoughOrMore(js: string, cap: nat, p: Parser)
    requires Links(p) && |p.toks| <= p.pos && Run(js, cap, p).1 != NoMem
    ensures Run(js, cap, p) == Run(js, |js|, p)
  {
    if cap <= |js| {
      MoreRoom(js, cap, |js|, p);
    } else {
      NeverOutOfTokens(js, |js|, p);
      MoreRoom(js, |js|, cap, p);
    }
  }

  /** `flb_pack_json`: one complete message from a fresh state. */
  method PackJson(js: string) returns (r: Packed)
    ensures r == PackMessage(js)
  {
    var state := new PackState();
    var s := state.JsonTokenise(js);
    if s != Ok {
      return Null;
    }
    TokensArePackable(js, |js|);
    CountIsAll(js, |js|, Init);
    r := TokensToMsgpack(js, state.tokens, state.tokensCount);
  }

  lemma {:induction false} CountIsAll(js: string, cap: nat, p: Parser)
    requires Links(p)
    ensures Run(js, cap, p).1.Count? ==> Run(js, cap, p).1.n == |Run(js, cap, p).0.toks|
    decreases |js| - p.pos
  {
    if More(js, p.pos) {
      StepKeepsLinks(js, cap, p);
      match Step(js, cap, p)
      case Stop(e) =>
      case Next(q) => CountIsAll(js, cap, q);
    }
  }
}
