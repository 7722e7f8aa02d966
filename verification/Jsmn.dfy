/**
 The JSON tokenizer of lib/jsmn, in the configuration Fluent Bit builds it with
 (JSMN_STRICT and JSMN_PARENT_LINKS).

 `Run` is the specification: one step per character of the outer loop, over a
 parser seen as a value.  `JsmnParser` is the tokenizer itself: a parser object
 and a fixed-size token array, both updated in place.
 */
module Jsmn {
  import opened Chars

  datatype TokenType = Undefined | Object | Array | String | Primitive

  datatype Token = Token(typ: TokenType, start: int, end: int, size: int, parent: int)

  /** The parser together with the tokens allocated so far (`toknext == |toks|`). */
  datatype Parser = Parser(pos: nat, toks: seq<Token>, super: int)

  datatype Result = NoMem | Inval | Part | Count(n: nat)

  const Init := Parser(0, [], -1)

  // ---------------------------------------------------------------- characters

  predicate IsSpace(c: char) { c == '\t' || c == '\r' || c == '\n' || c == ' ' }

  predicate EndsPrimitive(c: char) { IsSpace(c) || c == ',' || c == ']' || c == '}' }

  predicate Printable(c: char) { 32 <= c as int < 127 }

  predicate StartsPrimitive(c: char) {
    c == '-' || '0' <= c <= '9' || c == 't' || c == 'f' || c == 'n'
  }

  predicate SimpleEscape(c: char) {
    c == '"' || c == '/' || c == '\\' || c == 'b' || c == 'f' || c == 'r' || c == 'n' || c == 't'
  }

  /** There is a character to read: inside the buffer and not the terminator. */
  predicate More(js: string, i: nat) { i < |js| && js[i] != '\0' }

  // ---------------------------------------------------------------- scanning one lexeme

  datatype Scan = Found(at: nat) | Bad | Short

  function ScanPrimitive(js: string, i: nat): (s: Scan)
    ensures s.Found? ==> i <= s.at < |js|
    decreases |js| - i
  {
    if !More(js, i) then Short
    else if EndsPrimitive(js[i]) then Found(i)
    else if !Printable(js[i]) then Bad
    else ScanPrimitive(js, i + 1)
  }

  /** Reads up to `n` hexadecimal digits and returns the position after them. */
  function ScanHex(js: string, i: nat, n: nat): (s: Scan)
    ensures s.Found? ==> i <= s.at && (s.at <= |js| || s.at == i)
    ensures !s.Short?
    decreases n
  {
    if n == 0 || !More(js, i) then Found(i)
    else if !IsHex(js[i]) then Bad
    else ScanHex(js, i + 1, n - 1)
  }

  /** Scans a string body; `i` is past the opening quote, the result is the closing one. */
  function ScanString(js: string, i: nat): (s: Scan)
    ensures s.Found? ==> i <= s.at < |js|
    decreases |js| - i
  {
    if !More(js, i) then Short
    else if js[i] == '"' then Found(i)
    else if js[i] == '\\' && i + 1 < |js| then
      if SimpleEscape(js[i + 1]) then ScanString(js, i + 2)
      else if js[i + 1] == 'u' then
        var h := ScanHex(js, i + 2, 4);
        if h.Bad? then Bad else ScanString(js, h.at)
      else Bad
    else ScanString(js, i + 1)
  }

  // ---------------------------------------------------------------- tokens

  predicate IsOpen(t: Token) { t.start != -1 && t.end == -1 }

  /** Parent links point backwards, and so does the superior token. */
  predicate Links(p: Parser) {
    && -1 <= p.super < |p.toks|
    && forall i :: 0 <= i < |p.toks| ==> -1 <= p.toks[i].parent < i
  }

  /** Counts one more child for the superior token, if there is one. */
  function Bump(toks: seq<Token>, super: int): (r: seq<Token>)
    requires -1 <= super < |toks|
    ensures |r| == |toks|
  {
    if super == -1 then toks
    else toks[super := toks[super].(size := toks[super].size + 1)]
  }

  /** Walks the parent links from `i` up to the first open token or a closed root. */
  function Climb(toks: seq<Token>, i: nat): (k: nat)
    requires i < |toks|
    requires forall j :: 0 <= j < |toks| ==> -1 <= toks[j].parent < j
    ensures k <= i
    ensures IsOpen(toks[k]) || toks[k].parent == -1
  {
    if IsOpen(toks[i]) || toks[i].parent == -1 then i else Climb(toks, toks[i].parent)
  }

  // ---------------------------------------------------------------- one step

  /** A stop leaves the parser as it was before the character. */
  datatype Outcome = Next(p: Parser) | Stop(r: Result)

  function StepOpen(cap: nat, p: Parser, typ: TokenType): (o: Outcome)
    requires Links(p)
  {
    if |p.toks| >= cap then Stop(NoMem)
    else Next(Parser(p.pos + 1, Bump(p.toks, p.super) + [Token(typ, p.pos, -1, 0, p.super)], |p.toks|))
  }

  function StepClose(p: Parser, typ: TokenType): (o: Outcome)
    requires Links(p)
  {
    if |p.toks| < 1 then Stop(Inval)
    else
      var k := Climb(p.toks, |p.toks| - 1);
      var t := p.toks[k];
      if IsOpen(t) then
        if t.typ != typ then Stop(Inval)
        else Next(Parser(p.pos + 1, p.toks[k := t.(end := p.pos + 1)], t.parent))
      else if t.typ != typ || p.super == -1 then Stop(Inval)
      else Next(p.(pos := p.pos + 1))
  }

  /** Adds a finished leaf (string or primitive) and moves to `pos`. */
  function AddLeaf(cap: nat, p: Parser, t: Token, pos: nat): (o: Outcome)
    requires Links(p)
  {
    if |p.toks| >= cap then Stop(NoMem)
    else Next(Parser(pos, Bump(p.toks + [t], p.super), p.super))
  }

  function StringToken(cap: nat, p: Parser, s: Scan): (o: Outcome)
    requires Links(p)
  {
    match s
    case Found(e) => AddLeaf(cap, p, Token(String, p.pos + 1, e, 0, p.super), e + 1)
    case Bad => Stop(Inval)
    case Short => Stop(Part)
  }

  function StepString(js: string, cap: nat, p: Parser): (o: Outcome)
    requires Links(p)
  {
    StringToken(cap, p, ScanString(js, p.pos + 1))
  }

  function StepComma(p: Parser): (o: Outcome)
    requires Links(p)
  {
    if p.super != -1 && !p.toks[p.super].typ.Array? && !p.toks[p.super].typ.Object? then
      Next(p.(pos := p.pos + 1, super := p.toks[p.super].parent))
    else Next(p.(pos := p.pos + 1))
  }

  /** In strict mode a primitive cannot be a key. */
  predicate PrimitiveAllowed(p: Parser)
    requires Links(p)
  {
    p.super != -1 ==>
      var t := p.toks[p.super];
      !(t.typ.Object? || (t.typ.String? && t.size != 0))
  }

  function StepPrimitive(js: string, cap: nat, p: Parser): (o: Outcome)
    requires Links(p)
  {
    if !PrimitiveAllowed(p) then Stop(Inval)
    else
      match ScanPrimitive(js, p.pos)
      case Found(e) => AddLeaf(cap, p, Token(Primitive, p.pos, e, 0, p.super), e)
      case Bad => Stop(Inval)
      case Short => Stop(Part)
  }

  function Step(js: string, cap: nat, p: Parser): (o: Outcome)
    requires Links(p) && More(js, p.pos)
  {
    var c := js[p.pos];
    if c == '{' || c == '[' then StepOpen(cap, p, if c == '{' then Object else Array)
    else if c == '}' || c == ']' then StepClose(p, if c == '}' then Object else Array)
    else if c == '"' then StepString(js, cap, p)
    else if IsSpace(c) then Next(p.(pos := p.pos + 1))
    else if c == ':' then Next(p.(pos := p.pos + 1, super := |p.toks| - 1))
    else if c == ',' then StepComma(p)
    else if StartsPrimitive(c) then StepPrimitive(js, cap, p)
    else Stop(Inval)
  }

  lemma StepKeepsLinks(js: string, cap: nat, p: Parser)
    requires Links(p) && More(js, p.pos)
    ensures var o := Step(js, cap, p);
            o.Next? ==> Links(o.p) && p.pos < o.p.pos <= |js| && |p.toks| <= |o.p.toks|
  {
    var c := js[p.pos];
    if StartsPrimitive(c) {
      assert !EndsPrimitive(c) && Printable(c);
    }
  }

  // ---------------------------------------------------------------- one call

  function Finish(p: Parser): (r: Result) {
    if exists i :: 0 <= i < |p.toks| && IsOpen(p.toks[i]) then Part else Count(|p.toks|)
  }

  /** A whole call: the parser it leaves behind and what it returns. */
  function Run(js: string, cap: nat, p: Parser): (r: (Parser, Result))
    requires Links(p)
    ensures Links(r.0)
    decreases |js| - p.pos
  {
    if !More(js, p.pos) then (p, Finish(p))
    else
      StepKeepsLinks(js, cap, p);
      match Step(js, cap, p)
      case Stop(e) => (p, e)
      case Next(q) => Run(js, cap, q)
  }

  // ---------------------------------------------------------------- the tokenizer

  /** `jsmn_parser`; the token array is passed to every call, as in the original. */
  class JsmnParser {
    var pos: nat
    var toknext: nat
    var toksuper: int

    ghost function View(tokens: array<Token>): (p: Parser)
      requires toknext <= tokens.Length
      reads this, tokens
    {
      Parser(pos, tokens[..toknext], toksuper)
    }

    ghost predicate Valid(tokens: array<Token>)
      reads this, tokens
    {
      toknext <= tokens.Length && Links(View(tokens))
    }

    constructor ()
      ensures pos == 0 && toknext == 0 && toksuper == -1
    {
      pos, toknext, toksuper := 0, 0, -1;
    }

    /** Takes the next free cell, or reports that there is none. */
    method AllocToken(tokens: array<Token>) returns (ok: bool)
      requires toknext <= tokens.Length
      modifies this`toknext, tokens
      ensures ok <==> old(toknext) < tokens.Length
      ensures toknext == old(toknext) + (if ok then 1 else 0)
      ensures tokens[..old(toknext)] == old(tokens[..toknext])
      ensures ok ==> var t := tokens[old(toknext)];
                     t.start == -1 && t.end == -1 && t.size == 0 && t.parent == -1
    {
      if toknext >= tokens.Length {
        return false;
      }
      tokens[toknext] := Token(tokens[toknext].typ, -1, -1, 0, -1);
      toknext := toknext + 1;
      return true;
    }

    method ParsePrimitive(js: string, tokens: array<Token>) returns (r: Result)
      requires Valid(tokens) && More(js, pos) && !EndsPrimitive(js[pos])
      modifies this`pos, this`toknext, tokens
      ensures toknext <= tokens.Length
      ensures match ScanPrimitive(js, old(pos)) {
        case Short => r == Part && View(tokens) == old(View(tokens))
        case Bad => r == Inval && View(tokens) == old(View(tokens))
        case Found(e) =>
          if old(toknext) >= tokens.Length then r == NoMem && View(tokens) == old(View(tokens))
          else r == Count(0) && pos == e - 1 && toknext == old(toknext) + 1 &&
               tokens[..toknext] == old(tokens[..toknext]) + [Token(Primitive, old(pos), e, 0, toksuper)]
      }
    {
      var start := pos;
      var found := false;
      while More(js, pos) && !found
        invariant start <= pos <= |js|
        invariant found ==> start < pos && More(js, pos) && EndsPrimitive(js[pos])
        invariant toknext == old(toknext) && tokens[..] == old(tokens[..])
        invariant ScanPrimitive(js, start) == ScanPrimitive(js, pos)
        decreases |js| - pos, !found
      {
        if EndsPrimitive(js[pos]) {
          found := true;
        } else if !Printable(js[pos]) {
          pos := start;
          return Inval;
        } else {
          pos := pos + 1;
        }
      }
      if !found {
        pos := start;
        return Part;
      }
      var ok := AllocToken(tokens);
      if !ok {
        pos := start;
        return NoMem;
      }
      tokens[toknext - 1] := Token(Primitive, start, pos, 0, toksuper);
      pos := pos - 1;
      return Count(0);
    }

    method ParseString(js: string, tokens: array<Token>) returns (r: Result)
      requires Valid(tokens) && More(js, pos)
      modifies this`pos, this`toknext, tokens
      ensures toknext <= tokens.Length
      ensures match ScanString(js, old(pos) + 1) {
        case Short => r == Part && View(tokens) == old(View(tokens))
        case Bad => r == Inval && View(tokens) == old(View(tokens))
        case Found(e) =>
          if old(toknext) >= tokens.Length then r == NoMem && View(tokens) == old(View(tokens))
          else r == Count(0) && pos == e && toknext == old(toknext) + 1 &&
               tokens[..toknext] == old(tokens[..toknext]) + [Token(String, old(pos) + 1, e, 0, toksuper)]
      }
    {
      var start := pos;
      pos := pos + 1;
      while More(js, pos)
        invariant start < pos
        invariant toknext == old(toknext) && tokens[..] == old(tokens[..])
        invariant ScanString(js, start + 1) == ScanString(js, pos)
        decreases |js| - pos
      {
        var c := js[pos];
        if c == '"' {
          var ok := AllocToken(tokens);
          if !ok {
            pos := start;
            return NoMem;
          }
          tokens[toknext - 1] := Token(String, start + 1, pos, 0, toksuper);
          return Count(0);
        }
        if c == '\\' && pos + 1 < |js| {
          var ok := SkipEscape(js);
          if !ok {
            pos := start;
            return Inval;
          }
        }
        pos := pos + 1;
      }
      pos := start;
      return Part;
    }

    /** The switch on the escaped symbol; ends on the last character of the escape. */
    method SkipEscape(js: string) returns (ok: bool)
      requires pos + 1 < |js| && js[pos] == '\\'
      modifies this`pos
      ensures ok ==> old(pos) < pos && ScanString(js, old(pos)) == ScanString(js, pos + 1)
      ensures !ok ==> ScanString(js, old(pos)) == Bad
    {
      pos := pos + 1;
      if SimpleEscape(js[pos]) {
        return true;
      } else if js[pos] == 'u' {
        pos := pos + 1;
        ok := SkipHex(js);
        if ok {
          pos := pos - 1;
        }
      } else {
        return false;
      }
    }

    /** The inner loop over the four digits of a unicode escape. */
    method SkipHex(js: string) returns (ok: bool)
      modifies this`pos
      ensures ok <==> ScanHex(js, old(pos), 4).Found?
      ensures ok ==> pos == ScanHex(js, old(pos), 4).at
    {
      var i := 0;
      while i < 4 && More(js, pos)
        invariant i <= 4
        invariant ScanHex(js, old(pos), 4) == ScanHex(js, pos, 4 - i)
      {
        if !IsHex(js[pos]) {
          return false;
        }
        pos := pos + 1;
        i := i + 1;
      }
      return true;
    }

    /** The closing-bracket branch: the parent walk, and what it does where it ends. */
    method CloseBracket(tokens: array<Token>, typ: TokenType) returns (ok: bool)
      requires Valid(tokens)
      modifies this`toksuper, tokens
      ensures match StepClose(old(View(tokens)), typ) {
        case Stop(e) => !ok && e == Inval && View(tokens) == old(View(tokens))
        case Next(q) => ok && View(tokens) == q.(pos := pos)
      }
    {
      if toknext < 1 {
        return false;
      }
      var i := toknext - 1;
      while true
        invariant 0 <= i < toknext
        invariant Climb(tokens[..toknext], toknext - 1) == Climb(tokens[..toknext], i)
        decreases i
      {
        var t := tokens[i];
        if t.start != -1 && t.end == -1 {
          if t.typ != typ {
            return false;
          }
          tokens[i] := t.(end := pos + 1);
          toksuper := t.parent;
          return true;
        }
        if t.parent == -1 {
          return t.typ == typ && toksuper != -1;
        }
        i := t.parent;
      }
    }

    method OpenBracket(tokens: array<Token>, typ: TokenType) returns (ok: bool)
      requires Valid(tokens)
      modifies this`toknext, this`toksuper, tokens
      ensures toknext <= tokens.Length
      ensures match StepOpen(tokens.Length, old(View(tokens)), typ) {
        case Stop(e) => !ok && e == NoMem && View(tokens) == old(View(tokens))
        case Next(q) => ok && View(tokens) == q.(pos := pos)
      }
    {
      ok := AllocToken(tokens);
      if !ok {
        return;
      }
      if toksuper != -1 {
        BumpSuper(tokens);
        tokens[toknext - 1] := tokens[toknext - 1].(parent := toksuper);
      }
      tokens[toknext - 1] := tokens[toknext - 1].(typ := typ, start := pos);
      toksuper := toknext - 1;
    }

    method BumpSuper(tokens: array<Token>)
      requires toknext <= tokens.Length && 0 <= toksuper < toknext
      modifies tokens
      ensures tokens[..toknext] == Bump(old(tokens[..toknext]), toksuper)
    {
      tokens[toksuper] := tokens[toksuper].(size := tokens[toksuper].size + 1);
    }

    /** A string, counted in its superior token. */
    method StringLeaf(js: string, tokens: array<Token>) returns (r: Result)
      requires Valid(tokens) && More(js, pos)
      modifies this`pos, this`toknext, tokens
      ensures toknext <= tokens.Length
      ensures match StepString(js, tokens.Length, old(View(tokens))) {
        case Stop(e) => r == e && !e.Count? && View(tokens) == old(View(tokens))
        case Next(q) => r == Count(1) && View(tokens).(pos := pos + 1) == q
      }
    {
      r := ParseString(js, tokens);
      if !r.Count? {
        return;
      }
      if toksuper != -1 {
        BumpSuper(tokens);
      }
      return Count(1);
    }

    /** A number, boolean or null, counted in its superior token. */
    method PrimitiveLeaf(js: string, tokens: array<Token>) returns (r: Result)
      requires Valid(tokens) && More(js, pos) && !EndsPrimitive(js[pos])
      modifies this`pos, this`toknext, tokens
      ensures toknext <= tokens.Length
      ensures match StepPrimitive(js, tokens.Length, old(View(tokens))) {
        case Stop(e) => r == e && !e.Count? && View(tokens) == old(View(tokens))
        case Next(q) => r == Count(1) && View(tokens).(pos := pos + 1) == q
      }
    {
      if toksuper != -1 {
        var t := tokens[toksuper];
        if t.typ.Object? || (t.typ.String? && t.size != 0) {
          return Inval;
        }
      }
      r := ParsePrimitive(js, tokens);
      if !r.Count? {
        return;
      }
      if toksuper != -1 {
        BumpSuper(tokens);
      }
      return Count(1);
    }

    /** The branches for brackets. */
    method Bracket(js: string, tokens: array<Token>) returns (r: Result)
      requires Valid(tokens) && More(js, pos) && js[pos] in "{[}]"
      modifies this, tokens
      ensures toknext <= tokens.Length
      ensures match Step(js, tokens.Length, old(View(tokens))) {
        case Stop(e) => r == e && !e.Count? && View(tokens) == old(View(tokens))
        case Next(q) => r.Count? && toknext == old(toknext) + r.n && View(tokens).(pos := pos + 1) == q
      }
    {
      var c := js[pos];
      if c == '{' || c == '[' {
        var ok := OpenBracket(tokens, if c == '{' then Object else Array);
        r := if ok then Count(1) else NoMem;
      } else {
        var ok := CloseBracket(tokens, if c == '}' then Object else Array);
        r := if ok then Count(0) else Inval;
      }
    }

    /** The branches for a space, a colon and a comma. */
    method Separator(js: string, tokens: array<Token>) returns (r: Result)
      requires Valid(tokens) && More(js, pos) && (IsSpace(js[pos]) || js[pos] == ':' || js[pos] == ',')
      modifies this
      ensures toknext <= tokens.Length
      ensures match Step(js, tokens.Length, old(View(tokens))) {
        case Stop(e) => r == e && !e.Count? && View(tokens) == old(View(tokens))
        case Next(q) => r.Count? && toknext == old(toknext) + r.n && View(tokens).(pos := pos + 1) == q
      }
    {
      var c := js[pos];
      if c == ':' {
        toksuper := toknext - 1;
      } else if c == ',' {
        if toksuper != -1 && !tokens[toksuper].typ.Array? && !tokens[toksuper].typ.Object? {
          toksuper := tokens[toksuper].parent;
        }
      }
      r := Count(0);
    }

    /** The branch for one character, before the loop increment of `pos`. */
    method ParseChar(js: string, tokens: array<Token>) returns (r: Result)
      requires Valid(tokens) && More(js, pos)
      modifies this, tokens
      ensures toknext <= tokens.Length
      ensures match Step(js, tokens.Length, old(View(tokens))) {
        case Stop(e) => r == e && !e.Count? && View(tokens) == old(View(tokens))
        case Next(q) => r.Count? && toknext == old(toknext) + r.n && View(tokens).(pos := pos + 1) == q
      }
    {
      var c := js[pos];
      if c == '{' || c == '[' || c == '}' || c == ']' {
        r := Bracket(js, tokens);
      } else if c == '"' {
        r := StringLeaf(js, tokens);
      } else if IsSpace(c) || c == ':' || c == ',' {
        r := Separator(js, tokens);
      } else if StartsPrimitive(c) {
        r := PrimitiveLeaf(js, tokens);
      } else {
        r := Inval;
      }
    }

    /** `jsmn_parse`: refines `Run` on the parser and the tokens in use. */
    method Parse(js: string, tokens: array<Token>) returns (r: Result)
      requires Valid(tokens)
      modifies this, tokens
      ensures Valid(tokens)
      ensures (View(tokens), r) == Run(js, tokens.Length, old(View(tokens)))
    {
      var count := toknext;
      while More(js, pos)
        invariant Valid(tokens) && count == toknext
        invariant Run(js, tokens.Length, View(tokens)) == Run(js, tokens.Length, old(View(tokens)))
        decreases |js| - pos
      {
        StepKeepsLinks(js, tokens.Length, View(tokens));
        r := ParseChar(js, tokens);
        if !r.Count? {
          return;
        }
        count := count + r.n;
        pos := pos + 1;
      }
      var i := toknext - 1;
      while i >= 0
        invariant -1 <= i < toknext
        invariant forall j :: i < j < toknext ==> !IsOpen(tokens[j])
      {
        if tokens[i].start != -1 && tokens[i].end == -1 {
          assert IsOpen(View(tokens).toks[i]);
          return Part;
        }
        i := i - 1;
      }
      return Count(count);
    }
  }
}
