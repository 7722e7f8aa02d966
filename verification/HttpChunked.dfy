/**
 The in-place decoder for chunked HTTP bodies (src/flb_http_client.c, section 4.1 of
 RFC 7230).  After every read it compacts the buffer and remembers where it stopped.
 */
module HttpChunked {
  import opened Chars
  import opened Folding
  import opened Seqs

  /**
   The verdict of a call.  `Fault`: the source would move a negative number of bytes.  `Stray`:
   it would look at bytes before the response, or leave the range of an int or a long.
   */
  datatype Status = More | Ok | Error | Fault | Stray

  const LONG_MAX := 0x7fff_ffff_ffff_ffff
  const INT_SIZES := 0x8000_0000  // sizes that fit an int are below
  const LINE_MAX := 31  // sizeof(tmp) - 1

  // ---------------------------------------------------------------- C string functions

  datatype Find = Found(at: nat) | Absent

  /** `strstr(s, "\r\n")`: the search ends at a NUL byte. */
  function FindCrlf(s: string): (f: Find)
    ensures f.Found? ==> f.at + 2 <= |s| && s[f.at] == '\r' && s[f.at + 1] == '\n'
  {
    if |s| < 2 || s[0] == '\0' then Absent
    else if s[0] == '\r' && s[1] == '\n' then Found(0)
    else
      match FindCrlf(s[1..])
      case Absent => Absent
      case Found(i) => Found(i + 1)
  }

  predicate IsSpace(c: char) { c == ' ' || 9 <= c as int <= 13 }

  function HexDigit(c: char): (d: nat)
    requires IsHex(c)
    ensures d < 16
  {
    if c <= '9' then c as int - '0' as int
    else if 'a' <= c then 10 + (c as int - 'a' as int)
    else 10 + (c as int - 'A' as int)
  }

  /** The value of the leading hexadecimal digits, continuing from `acc`. */
  function HexValue(s: string, acc: nat): (n: nat) {
    if s != [] && IsHex(s[0]) then HexValue(s[1..], 16 * acc + HexDigit(s[0])) else acc
  }

  function SkipSpace(s: string): (r: string) {
    if s != [] && IsSpace(s[0]) then SkipSpace(s[1..]) else s
  }

  /** `strtol(s, NULL, 16)` before it is cut to the range of a long. */
  function Strtol16(s: string): (n: int) {
    var t := SkipSpace(s);
    var neg := t != [] && t[0] == '-';
    var u := if t != [] && (t[0] == '-' || t[0] == '+') then t[1..] else t;
    var v := if |u| > 2 && u[0] == '0' && (u[1] == 'x' || u[1] == 'X') && IsHex(u[2]) then u[2..] else u;
    var m := HexValue(v, 0);
    if neg then 0 - m else m
  }

  // ---------------------------------------------------------------- one chunk

  /**
   What stands at the start of the undecoded bytes.  `Skewed` is a negative size that passes
   every check: a CRLF before the end of the line is taken for the one after the data.
   */
  datatype Chunk =
    | Incomplete
    | Invalid
    | Data(header: nat, size: nat)
    | Last(header: nat)
    | Skewed(header: nat, size: nat)
    | Outside

  /** The chunk at the start of `r`, in a response that holds `f` before it. */
  function NextChunk(f: string, r: string): (c: Chunk)
    ensures InBounds(c, r)
  {
    match FindCrlf(r)
    case Absent => Incomplete
    case Found(i) =>
      if i > LINE_MAX || i == 0 then Invalid
      else
        var val := Strtol16(r[..i]);
        if val > LONG_MAX || val < -LONG_MAX - 1 then Invalid
        else if val > LONG_MAX - 2 then Outside
        else Sized(f, r, i, val)
  }

  /** A chunk with a line of `i` characters that reads as `val`. */
  function Sized(f: string, r: string, i: nat, val: int): (c: Chunk)
    requires 0 < i && i + 2 <= |r|
    ensures InBounds(c, r)
  {
    if |r| - (i + 2) < val + 2 then Incomplete
    else if |f| + i + 2 + val < 0 then Outside
    else if !CrlfAt(f + r, |f| + i + 2 + val) then Invalid
    else if val == 0 then
      if |r| < 5 then Incomplete
      else if !CrlfAt(r, 3) then Invalid
      else Last(i + 2)
    else if val >= INT_SIZES || -val >= INT_SIZES then Outside
    else if val > 0 then Data(i + 2, val)
    else Skewed(i + 2, -val)
  }

  predicate CrlfAt(s: string, k: nat)
    requires k + 2 <= |s|
  {
    s[k] == '\r' && s[k + 1] == '\n'
  }

  predicate InBounds(c: Chunk, r: string) {
    && (c.Data? ==> c.size > 0 && 0 < c.header && c.header + c.size + 2 <= |r|)
    && (c.Last? ==> 0 < c.header && c.header + 2 <= |r|)
    && (c.Skewed? ==> 0 < c.header <= |r|)
  }

  // ---------------------------------------------------------------- one call

  /** Bytes decoded, bytes left undecoded, and the verdict. */
  datatype Decoded = Decoded(out: string, rest: string, status: Status)

  /** A way of recognising the chunk at the start of some bytes, given those before it. */
  type Recogniser = (string, string) -> Chunk

  /** It stays in bounds and does not change its mind when bytes are added. */
  ghost predicate Recognises(next: Recogniser) {
    forall b {:trigger Unfold(b)} :: Unfold(b) ==>
      && (forall f, r :: InBounds(next(f, r), r))
      && (forall f :: next(f, "") == Incomplete)
      && (forall f, r, m {:trigger next(f, r + m)} :: next(f, r) != Incomplete ==> next(f, r + m) == next(f, r))
  }

  lemma {:induction false} Within(next: Recogniser, f: string, r: string)
    requires Recognises(next)
    ensures InBounds(next(f, r), r) && next(f, "") == Incomplete
  {
    assert Unfold(true);
  }

  lemma {:induction false} Decided(next: Recogniser, f: string, r: string, m: string)
    requires Recognises(next) && next(f, r) != Incomplete
    ensures next(f, r + m) == next(f, r)
  {
    assert Unfold(true);
  }

  /** The source takes `n` bytes after a header of `h` bytes, and drops two. */
  predicate Takes(next: Recogniser, f: string, r: string, h: nat, n: nat) {
    (next(f, r) == Data(h, n) || next(f, r) == Skewed(h, n)) && h > 0 && h + n + 2 <= |r|
  }

  /** What one call makes of the undecoded bytes `r`, with `f` before them. */
  function Decode(next: Recogniser, f: string, r: string): (d: Decoded)
    requires Recognises(next)
    decreases |r|
  {
    Within(next, f, r);
    match next(f, r)
    case Incomplete => Decoded("", r, More)
    case Invalid => Decoded("", r, Error)
    case Outside => Decoded("", r, Stray)
    case Last(h) => Decoded("", r[h + 2..], Ok)
    case Data(h, n) =>
      var d := Decode(next, f + r[h..h + n], r[h + n + 2..]);
      d.(out := r[h..h + n] + d.out)
    case Skewed(h, n) =>
      if |r| < h + n + 2 then Decoded("", r, Fault)
      else
        var d := Decode(next, f + r[h..h + n], r[h + n + 2..]);
        d.(out := r[h..h + n] + d.out)
  }

  /** A chunk moves its data to the output and leaves the bytes after it. */
  lemma {:induction false} DecodeData(
      next: Recogniser, f: string, r: string, h: nat, n: nat, data: string, tail: string)
    requires Recognises(next) && Takes(next, f, r, h, n)
    requires data == r[h..h + n] && tail == r[h + n + 2..]
    ensures var d := Decode(next, f + data, tail); Decode(next, f, r) == d.(out := data + d.out)
  {
  }

  /** Decoding meets a negative size that passes, or one that has no meaning. */
  predicate Strays(next: Recogniser, f: string, r: string)
    requires Recognises(next)
    decreases |r|
  {
    Within(next, f, r);
    match next(f, r)
    case Data(h, n) => Strays(next, f + r[h..h + n], r[h + n + 2..])
    case Skewed(_, _) => true
    case Outside => true
    case _ => false
  }

  /** It meets a negative size that passes, with enough bytes after it to go on. */
  predicate Meets(next: Recogniser, f: string, r: string)
    requires Recognises(next)
    decreases |r|
  {
    Within(next, f, r);
    match next(f, r)
    case Data(h, n) => Meets(next, f + r[h..h + n], r[h + n + 2..])
    case Skewed(h, n) => |r| >= h + n + 2
    case _ => false
  }

  /** The source has an outcome. */
  predicate Defined(status: Status) { status == More || status == Ok || status == Error }

  lemma {:induction false} StraysExactly(next: Recogniser, f: string, r: string)
    requires Recognises(next)
    ensures !Strays(next, f, r) <==> !Meets(next, f, r) && Defined(Decode(next, f, r).status)
    decreases |r|
  {
    Within(next, f, r);
    match next(f, r)
    case Data(h, n) => StraysExactly(next, f + r[h..h + n], r[h + n + 2..]);
    case _ =>
  }

  /** Added bytes do not change the chunk, its data or what comes after it. */
  lemma {:induction false} TakesMore(next: Recogniser, f: string, r: string, m: string, h: nat, n: nat)
    requires Recognises(next) && Takes(next, f, r, h, n)
    ensures Takes(next, f, r + m, h, n)
    ensures (r + m)[h..h + n] == r[h..h + n] && (r + m)[h + n + 2..] == r[h + n + 2..] + m
  {
    Decided(next, f, r, m);
  }

  /** Decoding the leftover with more bytes is decoding everything at once. */
  lemma {:induction false} DecodeResumes(next: Recogniser, f: string, r: string, m: string, d: Decoded, e: Decoded)
    requires Recognises(next) && d == Decode(next, f, r) && d.status == More
    requires e == Decode(next, f + d.out, d.rest + m)
    ensures Decode(next, f, r + m) == Decoded(d.out + e.out, e.rest, e.status)
    decreases |r|
  {
    Within(next, f, r);
    match next(f, r)
    case Incomplete => assert "" + e.out == e.out && f + "" == f;
    case Data(h, n) => ResumesAfter(next, f, r, m, d, e, h, n);
    case Skewed(h, n) => ResumesAfter(next, f, r, m, d, e, h, n);
  }

  lemma {:induction false} ResumesAfter(
      next: Recogniser, f: string, r: string, m: string, d: Decoded, e: Decoded, h: nat, n: nat)
    requires Recognises(next) && d == Decode(next, f, r) && d.status == More
    requires e == Decode(next, f + d.out, d.rest + m) && Takes(next, f, r, h, n)
    ensures Decode(next, f, r + m) == Decoded(d.out + e.out, e.rest, e.status)
    decreases |r|, 0
  {
    var data, tail := r[h..h + n], r[h + n + 2..];
    var t := Decode(next, f + data, tail);
    TakesMore(next, f, r, m, h, n);
    DecodeData(next, f, r, h, n, data, tail);
    DecodeData(next, f, r + m, h, n, data, tail + m);
    Reassociate(f, data, t.out);
    DecodeResumes(next, f + data, tail, m, t, e);
    Reassociate(data, t.out, e.out);
  }

  /** A verdict stands, whatever arrives after it; a fault while too little arrives to avoid it. */
  lemma {:induction false} VerdictStands(next: Recogniser, f: string, r: string, m: string, d: Decoded)
    requires Recognises(next) && d == Decode(next, f, r) && d.status != More
    requires d.status == Fault ==> !Meets(next, f, r + m)
    ensures Decode(next, f, r + m) == Decoded(d.out, d.rest + m, d.status)
    decreases |r|
  {
    Within(next, f, r);
    Decided(next, f, r, m);
    match next(f, r)
    case Invalid =>
    case Outside =>
    case Last(h) => assert (r + m)[h + 2..] == r[h + 2..] + m;
    case Data(h, n) => StandsAfter(next, f, r, m, d, h, n);
    case Skewed(h, n) =>
      if |r| >= h + n + 2 {
        StandsAfter(next, f, r, m, d, h, n);
      }
  }

  lemma {:induction false} StandsAfter(
      next: Recogniser, f: string, r: string, m: string, d: Decoded, h: nat, n: nat)
    requires Recognises(next) && d == Decode(next, f, r) && d.status != More && Takes(next, f, r, h, n)
    requires d.status == Fault ==> !Meets(next, f, r + m)
    ensures Decode(next, f, r + m) == Decoded(d.out, d.rest + m, d.status)
    decreases |r|, 0
  {
    var data, tail := r[h..h + n], r[h + n + 2..];
    TakesMore(next, f, r, m, h, n);
    DecodeData(next, f, r, h, n, data, tail);
    DecodeData(next, f, r + m, h, n, data, tail + m);
    MeetsAfter(next, f, r + m, h, n, data, tail + m);
    VerdictStands(next, f + data, tail, m, Decode(next, f + data, tail));
  }

  lemma {:induction false} MeetsAfter(
      next: Recogniser, f: string, r: string, h: nat, n: nat, data: string, tail: string)
    requires Recognises(next) && Takes(next, f, r, h, n) && data == r[h..h + n] && tail == r[h + n + 2..]
    ensures Meets(next, f + data, tail) ==> Meets(next, f, r)
  {
  }

  // ---------------------------------------------------------------- any partition into reads

  function Concat(pieces: seq<string>): (s: string) {
    if pieces == [] then "" else pieces[0] + Concat(pieces[1..])
  }

  /** One call per read, until a call decides; `head` is what stands before the body. */
  function DecodeReads(next: Recogniser, head: string, d: Decoded, pieces: seq<string>): (e: Decoded)
    requires Recognises(next)
    decreases |pieces|
  {
    if pieces == [] || d.status != More then d
    else DecodeReads(next, head, Later(next, head, d, pieces[0]), pieces[1..])
  }

  /** The state after one more call. */
  function Later(next: Recogniser, head: string, d: Decoded, piece: string): (e: Decoded)
    requires Recognises(next)
  {
    var n := Decode(next, head + d.out, d.rest + piece);
    Decoded(d.out + n.out, n.rest, n.status)
  }

  /**
   The calls for a body.  The first piece is what the read that completed the headers held
   after them; if it held nothing, no payload is marked and the response counts as complete.
   */
  function DecodeBody(next: Recogniser, head: string, pieces: seq<string>): (e: Decoded)
    requires Recognises(next) && pieces != []
  {
    if pieces[0] == "" then Decoded("", "", Ok) else DecodeReads(next, head, Start, pieces)
  }

  /** `d` is what decoding everything at once gives, up to bytes after the verdict. */
  predicate Agrees(d: Decoded, whole: Decoded) {
    && d.out == whole.out && d.status == whole.status
    && d.rest <= whole.rest && (d.status == More ==> d.rest == whole.rest)
  }

  const Start := Decoded("", "", More)

  /** However a stream without such a size is cut into reads, the outcome is that of decoding it whole. */
  lemma {:induction false} ReadsAreOneShot(
      next: Recogniser, head: string, d: Decoded, seen: string, pieces: seq<string>)
    requires Recognises(next) && Agrees(d, Decode(next, head, seen)) && !Meets(next, head, seen + Concat(pieces))
    ensures Agrees(DecodeReads(next, head, d, pieces), Decode(next, head, seen + Concat(pieces)))
    decreases |pieces|
  {
    if pieces == [] {
      assert seen + Concat(pieces) == seen;
    } else if d.status != More {
      VerdictStands(next, head, seen, Concat(pieces), Decode(next, head, seen));
    } else {
      LaterAgrees(next, head, d, seen, pieces[0]);
      Reassociate(seen, pieces[0], Concat(pieces[1..]));
      ReadsAreOneShot(next, head, Later(next, head, d, pieces[0]), seen + pieces[0], pieces[1..]);
    }
  }

  lemma {:induction false} LaterAgrees(next: Recogniser, head: string, d: Decoded, seen: string, piece: string)
    requires Recognises(next) && Agrees(d, Decode(next, head, seen)) && d.status == More
    ensures Agrees(Later(next, head, d, piece), Decode(next, head, seen + piece))
  {
    DecodeResumes(next, head, seen, piece, Decode(next, head, seen), Decode(next, head + d.out, d.rest + piece));
  }

  /** What is recognised is recognised as soon as it is there. */
  ghost predicate Prompt(next: Recogniser) {
    forall b {:trigger Unfold(b)} :: Unfold(b) ==>
      forall f, r, k: nat {:trigger next(f, r[..k])} ::
        k <= |r| && Settled(next(f, r), k) ==> next(f, r[..k]) == next(f, r)
  }

  /** What decides the chunk ends within `k` bytes. */
  predicate Settled(c: Chunk, k: nat) {
    (c.Data? && c.header + c.size + 2 <= k) || (c.Skewed? && c.header <= k)
  }

  lemma {:induction false} Promptly(next: Recogniser, f: string, r: string, k: nat)
    requires Prompt(next) && k <= |r| && Settled(next(f, r), k)
    ensures next(f, r[..k]) == next(f, r)
  {
    assert Unfold(true);
  }

  /** Where such a size is met, a cut right after its line makes the source fault. */
  lemma {:induction false} CutAfterSkewed(next: Recogniser, f: string, r: string) returns (k: nat)
    requires Recognises(next) && Prompt(next) && Meets(next, f, r)
    ensures k <= |r| && Decode(next, f, r[..k]).status == Fault
    decreases |r|
  {
    Within(next, f, r);
    match next(f, r)
    case Skewed(h, n) =>
      k := h;
      Promptly(next, f, r, k);
    case Data(h, n) =>
      var data, tail := r[h..h + n], r[h + n + 2..];
      var j := CutAfterSkewed(next, f + data, tail);
      k := h + n + 2 + j;
      Promptly(next, f, r, k);
      assert r[..k][h + n + 2..] == tail[..j] && r[..k][h..h + n] == data;
      DecodeData(next, f, r[..k], h, n, data, tail[..j]);
  }

  /** In whatever reads the body comes, the source has an outcome, and it is the same. */
  ghost predicate Independent(next: Recogniser, head: string, r: string)
    requires Recognises(next)
  {
    forall pieces :: Concat(pieces) == r ==> SameOutcome(DecodeReads(next, head, Start, pieces), Decode(next, head, r))
  }

  predicate SameOutcome(d: Decoded, whole: Decoded) { Defined(d.status) && Agrees(d, whole) }

  /** That is so exactly when decoding meets no negative size that passes, and none without a meaning. */
  lemma {:induction false} OneShotExactly(next: Recogniser, head: string, r: string)
    requires Recognises(next) && Prompt(next)
    ensures Independent(next, head, r) <==> !Strays(next, head, r)
  {
    StraysExactly(next, head, r);
    if Meets(next, head, r) {
      var k := CutAfterSkewed(next, head, r);
      CutFaults(next, head, r, k);
    } else if Strays(next, head, r) {
      OneRead(next, head, r);
    } else {
      forall pieces | Concat(pieces) == r
        ensures SameOutcome(DecodeReads(next, head, Start, pieces), Decode(next, head, r))
      {
        PartitionAgrees(next, head, r, pieces);
      }
    }
  }

  lemma {:induction false} OneRead(next: Recogniser, head: string, r: string)
    requires Recognises(next)
    ensures Concat([r]) == r && DecodeReads(next, head, Start, [r]) == Decode(next, head, r)
  {
    assert Concat([r]) == r + Concat([]) == r;
    assert head + "" == head && "" + r == r && "" + Decode(next, head, r).out == Decode(next, head, r).out;
  }

  lemma {:induction false} TwoReads(next: Recogniser, head: string, a: string, b: string)
    requires Recognises(next) && Decode(next, head, a).status == Fault
    ensures Concat([a, b]) == a + b && DecodeReads(next, head, Start, [a, b]).status == Fault
  {
    var pieces := [a, b];
    assert pieces[0] == a && pieces[1..] == [b];
    OneRead(next, head, b);
    assert head + "" == head && "" + a == a;
    assert Later(next, head, Start, a).status == Fault;
  }

  lemma {:induction false} CutFaults(next: Recogniser, head: string, r: string, k: nat)
    requires Recognises(next) && k <= |r| && Decode(next, head, r[..k]).status == Fault
    ensures !Independent(next, head, r)
  {
    TwoReads(next, head, r[..k], r[k..]);
    assert r[..k] + r[k..] == r;
    assert !SameOutcome(DecodeReads(next, head, Start, [r[..k], r[k..]]), Decode(next, head, r));
  }

  lemma {:induction false} PartitionAgrees(next: Recogniser, head: string, r: string, pieces: seq<string>)
    requires Recognises(next) && Concat(pieces) == r && !Meets(next, head, r)
    ensures Agrees(DecodeReads(next, head, Start, pieces), Decode(next, head, r))
  {
    assert "" + r == r;
    Within(next, head, "");
    ReadsAreOneShot(next, head, Start, "", pieces);
  }

  // ---------------------------------------------------------------- the recogniser of the source

  lemma {:induction false} FindCrlfExtends(s: string, m: string)
    requires FindCrlf(s).Found?
    ensures FindCrlf(s + m) == FindCrlf(s)
    decreases |s|
  {
    if !(s[0] == '\r' && s[1] == '\n') {
      assert (s + m)[1..] == s[1..] + m;
      FindCrlfExtends(s[1..], m);
    }
  }

  lemma {:induction false} NextChunkExtends(f: string, r: string, m: string)
    requires NextChunk(f, r) != Incomplete
    ensures NextChunk(f, r + m) == NextChunk(f, r)
  {
    FindCrlfExtends(r, m);
    var i := FindCrlf(r).at;
    assert (r + m)[..i] == r[..i];
    Reassociate(f, r, m);
  }

  lemma {:induction false} FindCrlfTruncates(s: string, k: nat)
    requires FindCrlf(s).Found? && FindCrlf(s).at + 2 <= k <= |s|
    ensures FindCrlf(s[..k]) == FindCrlf(s)
    decreases |s|
  {
    if !(s[0] == '\r' && s[1] == '\n') {
      assert s[..k][1..] == s[1..][..k - 1];
      FindCrlfTruncates(s[1..], k - 1);
    }
  }

  lemma {:induction false} NextChunkTruncates(f: string, r: string, k: nat)
    requires k <= |r| && Settled(NextChunk(f, r), k)
    ensures NextChunk(f, r[..k]) == NextChunk(f, r)
  {
    FindCrlfTruncates(r, k);
    var i := FindCrlf(r).at;
    assert r[..k][..i] == r[..i];
    assert f + r[..k] == (f + r)[..|f| + k];
  }

  lemma NextChunkPrompt()
    ensures Prompt(NextChunk)
  {
    forall f, r, k: nat | k <= |r| && Settled(NextChunk(f, r), k) ensures NextChunk(f, r[..k]) == NextChunk(f, r) {
      NextChunkTruncates(f, r, k);
    }
  }

  lemma NextChunkRecognises()
    ensures Recognises(NextChunk)
  {
    forall f, r, m | NextChunk(f, r) != Incomplete ensures NextChunk(f, r + m) == NextChunk(f, r) {
      NextChunkExtends(f, r, m);
    }
  }

  // ---------------------------------------------------------------- well-formed streams

  /** A chunk as sent: its size line (hexadecimal size, perhaps an extension) and its data. */
  datatype Sent = Sent(line: string, data: string)

  predicate NoCrlf(s: string) {
    && (forall i :: 0 <= i < |s| ==> s[i] != '\0')
    && (forall i :: 0 <= i < |s| - 1 ==> !(s[i] == '\r' && s[i + 1] == '\n'))
  }

  predicate GoodChunk(c: Sent) {
    forall b {:trigger Unfold(b)} :: Unfold(b) ==>
      && 1 <= |c.line| <= LINE_MAX && NoCrlf(c.line)
      && c.data != [] && Strtol16(c.line) == |c.data| < INT_SIZES
  }

  predicate GoodChunks(cs: seq<Sent>) { forall i :: 0 <= i < |cs| ==> GoodChunk(cs[i]) }

  const CRLF := "\r\n"

  const LAST_CHUNK := "0\r\n\r\n"

  function Wire(c: Sent): (s: string) { c.line + CRLF + c.data + CRLF }

  function Stream(cs: seq<Sent>): (s: string) {
    if cs == [] then LAST_CHUNK else Wire(cs[0]) + Stream(cs[1..])
  }

  function DataOf(cs: seq<Sent>): (s: string) {
    if cs == [] then "" else cs[0].data + DataOf(cs[1..])
  }

  /** What should have been decoded after `k` bytes of the stream. */
  function Expected(cs: seq<Sent>, k: nat): (d: Decoded)
    requires k <= |Stream(cs)|
  {
    if k == |Stream(cs)| then Decoded(DataOf(cs), "", Ok) else Decoded(Complete(cs, k), Partial(cs, k), More)
  }

  /** The data of the chunks that have completely arrived. */
  function Complete(cs: seq<Sent>, k: nat): (s: string) {
    if cs == [] || k < |Wire(cs[0])| then "" else cs[0].data + Complete(cs[1..], k - |Wire(cs[0])|)
  }

  /** The bytes that arrived after them. */
  function Partial(cs: seq<Sent>, k: nat): (s: string)
    requires k <= |Stream(cs)|
  {
    if cs == [] || k < |Wire(cs[0])| then Stream(cs)[..k] else Partial(cs[1..], k - |Wire(cs[0])|)
  }

  /** Chunks as sent, one after the other. */
  function Wires(cs: seq<Sent>): (s: string) { if cs == [] then "" else Wire(cs[0]) + Wires(cs[1..]) }

  /** The two together are what arrived: whole chunks, and less than one more. */
  lemma {:induction false} Arrived(cs: seq<Sent>, k: nat) returns (n: nat)
    requires k <= |Stream(cs)|
    ensures n <= |cs| && Complete(cs, k) == DataOf(cs[..n]) && Stream(cs)[..k] == Wires(cs[..n]) + Partial(cs, k)
    ensures n < |cs| ==> |Partial(cs, k)| < |Wire(cs[n])|
    decreases |cs|
  {
    if cs == [] || k < |Wire(cs[0])| {
      n := 0;
      assert cs[..0] == [] && "" + Stream(cs)[..k] == Stream(cs)[..k];
    } else {
      var w, rest := Wire(cs[0]), cs[1..];
      var m := Arrived(rest, k - |w|);
      n := m + 1;
      assert cs[..n] == [cs[0]] + rest[..m];
      StreamTail(cs, k);
      Reassociate(w, Wires(rest[..m]), Partial(rest, k - |w|));
    }
  }

  lemma {:induction false} ExpectedTail(cs: seq<Sent>, k: nat, e: Decoded)
    requires cs != [] && |Wire(cs[0])| <= k <= |Stream(cs)| && e == Expected(cs[1..], k - |Wire(cs[0])|)
    ensures Expected(cs, k) == e.(out := cs[0].data + e.out)
  {
  }

  lemma {:induction false} FindCrlfAfter(line: string, m: string)
    requires NoCrlf(line)
    ensures FindCrlf(line + CRLF + m) == Found(|line|)
    decreases |line|
  {
    var s := line + CRLF + m;
    if line != [] {
      assert s[0] == line[0] && s[1..] == line[1..] + CRLF + m;
      assert NoCrlf(line[1..]);
      FindCrlfAfter(line[1..], m);
    }
  }

  lemma {:induction false} FindCrlfNone(s: string)
    requires NoCrlf(s)
    ensures FindCrlf(s) == Absent
    decreases |s|
  {
    if |s| >= 2 {
      FindCrlfNone(s[1..]);
    }
  }

  /** A chunk that has completely arrived is recognised, whatever follows. */
  lemma {:induction false} WholeChunk(f: string, c: Sent, m: string)
    requires GoodChunk(c)
    ensures NextChunk(f, Wire(c) + m) == Data(|c.line| + 2, |c.data|)
  {
    assert Unfold(true);
    var r := Wire(c) + m;
    assert r == c.line + CRLF + (c.data + CRLF + m);
    FindCrlfAfter(c.line, c.data + CRLF + m);
    assert r[..|c.line|] == c.line;
  }

  lemma WireSlices(c: Sent, m: string)
    ensures (Wire(c) + m)[|c.line| + 2..|c.line| + 2 + |c.data|] == c.data
    ensures (Wire(c) + m)[|c.line| + 2 + |c.data| + 2..] == m
  {
  }

  /** A chunk that has not is not, and neither is an error reported. */
  lemma {:induction false} PartialChunk(f: string, c: Sent, k: nat)
    requires GoodChunk(c) && k < |Wire(c)|
    ensures NextChunk(f, Wire(c)[..k]) == Incomplete
  {
    assert Unfold(true);
    var r := Wire(c)[..k];
    if k <= |c.line| + 1 {
      assert NoCrlf(r) by {
        forall i | 0 <= i < |r| ensures r[i] != '\0' {
          assert i < |c.line| ==> r[i] == c.line[i];
        }
        forall i | 0 <= i < |r| - 1 ensures !(r[i] == '\r' && r[i + 1] == '\n') {
          assert i + 1 < |c.line| ==> r[i] == c.line[i] && r[i + 1] == c.line[i + 1];
          assert i + 1 == |c.line| ==> r[i + 1] == '\r';
        }
      }
      FindCrlfNone(r);
    } else {
      var m := (c.data + CRLF)[..k - |c.line| - 2];
      assert r == c.line + CRLF + m;
      FindCrlfAfter(c.line, m);
      assert r[..|c.line|] == c.line;
    }
  }

  lemma LastChunk(f: string, k: nat)
    requires k <= 5
    ensures NextChunk(f, LAST_CHUNK[..k]) == if k < 5 then Incomplete else Last(3)
  {
    var r := LAST_CHUNK[..k];
    if k <= 2 {
      FindCrlfNone(r);
    } else {
      assert r == "0" + CRLF + CRLF[..k - 3];
      FindCrlfAfter("0", CRLF[..k - 3]);
      assert r[..1] == "0";
    }
  }

  /** `next` knows the whole and the partial chunks of well-formed streams. */
  ghost predicate Knows(next: Recogniser) {
    forall b {:trigger Unfold(b)} :: Unfold(b) ==>
    && (forall f, c, m :: GoodChunk(c) ==> next(f, Wire(c) + m) == Data(|c.line| + 2, |c.data|))
    && (forall f, c, k: nat :: GoodChunk(c) && k < |Wire(c)| ==> next(f, Wire(c)[..k]) == Incomplete)
    && (forall f, k: nat :: k <= 5 ==> next(f, LAST_CHUNK[..k]) == if k < 5 then Incomplete else Last(3))
  }

  lemma NextChunkKnows()
    ensures Knows(NextChunk)
  {
    forall f, c, m | GoodChunk(c) ensures NextChunk(f, Wire(c) + m) == Data(|c.line| + 2, |c.data|) {
      WholeChunk(f, c, m);
    }
    forall f, c, k: nat | GoodChunk(c) && k < |Wire(c)| ensures NextChunk(f, Wire(c)[..k]) == Incomplete {
      PartialChunk(f, c, k);
    }
    forall f, k: nat | k <= 5 ensures NextChunk(f, LAST_CHUNK[..k]) == if k < 5 then Incomplete else Last(3) {
      LastChunk(f, k);
    }
  }

  /**
   After any prefix of a well-formed stream the decoded bytes are the data of the chunks that
   have completely arrived, the rest is the raw suffix, and the verdict is OK exactly when
   the stream is complete.
   */
  lemma {:induction false} StreamPrefix(next: Recogniser, f: string, cs: seq<Sent>, k: nat)
    requires Recognises(next) && Knows(next)
    requires GoodChunks(cs) && k <= |Stream(cs)|
    ensures Decode(next, f, Stream(cs)[..k]) == Expected(cs, k) && !Strays(next, f, Stream(cs)[..k])
    decreases |cs|
  {
    if cs == [] {
      LastKnown(next, f, k);
    } else if k < |Wire(cs[0])| {
      StreamHead(cs, k);
      PartKnown(next, f, cs[0], k);
    } else {
      StreamPrefix(next, f + cs[0].data, cs[1..], k - |Wire(cs[0])|);
      StreamNext(next, f, cs, k, Stream(cs[1..])[..k - |Wire(cs[0])|]);
    }
  }

  lemma {:induction false} StreamNext(next: Recogniser, f: string, cs: seq<Sent>, k: nat, m: string)
    requires Recognises(next) && Knows(next) && cs != [] && GoodChunk(cs[0]) && |Wire(cs[0])| <= k <= |Stream(cs)|
    requires m == Stream(cs[1..])[..k - |Wire(cs[0])|]
    requires Decode(next, f + cs[0].data, m) == Expected(cs[1..], k - |Wire(cs[0])|)
    requires !Strays(next, f + cs[0].data, m)
    ensures Decode(next, f, Stream(cs)[..k]) == Expected(cs, k) && !Strays(next, f, Stream(cs)[..k])
  {
    StreamTail(cs, k);
    WholeKnown(next, f, cs[0], m);
    ExpectedTail(cs, k, Expected(cs[1..], k - |Wire(cs[0])|));
  }

  lemma {:induction false} StreamHead(cs: seq<Sent>, k: nat)
    requires cs != [] && k < |Wire(cs[0])|
    ensures k < |Stream(cs)| && Stream(cs)[..k] == Wire(cs[0])[..k]
    ensures Expected(cs, k) == Decoded("", Wire(cs[0])[..k], More)
  {
  }

  lemma {:induction false} StreamTail(cs: seq<Sent>, k: nat)
    requires cs != [] && |Wire(cs[0])| <= k <= |Stream(cs)|
    ensures k - |Wire(cs[0])| <= |Stream(cs[1..])|
    ensures Stream(cs)[..k] == Wire(cs[0]) + Stream(cs[1..])[..k - |Wire(cs[0])|]
  {
  }

  lemma {:induction false} LastKnown(next: Recogniser, f: string, k: nat)
    requires Recognises(next) && Knows(next) && k <= 5
    ensures Decode(next, f, LAST_CHUNK[..k]) ==
            if k < 5 then Decoded("", LAST_CHUNK[..k], More) else Decoded("", "", Ok)
    ensures !Strays(next, f, LAST_CHUNK[..k])
  {
    assert Unfold(true);
    assert next(f, LAST_CHUNK[..k]) == if k < 5 then Incomplete else Last(3);
  }

  lemma {:induction false} PartKnown(next: Recogniser, f: string, c: Sent, k: nat)
    requires Recognises(next) && Knows(next) && GoodChunk(c) && k < |Wire(c)|
    ensures Decode(next, f, Wire(c)[..k]) == Decoded("", Wire(c)[..k], More) && !Strays(next, f, Wire(c)[..k])
  {
    assert Unfold(true);
  }

  lemma {:induction false} WholeKnown(next: Recogniser, f: string, c: Sent, m: string)
    requires Recognises(next) && Knows(next) && GoodChunk(c)
    ensures var d := Decode(next, f + c.data, m); Decode(next, f, Wire(c) + m) == d.(out := c.data + d.out)
    ensures Strays(next, f, Wire(c) + m) <==> Strays(next, f + c.data, m)
  {
    assert next(f, Wire(c) + m) == Data(|c.line| + 2, |c.data|) by {
      assert Unfold(true);
    }
    WireSlices(c, m);
    DecodeData(next, f, Wire(c) + m, |c.line| + 2, |c.data|, c.data, m);
  }

  // ---------------------------------------------------------------- size lines that are not sizes

  /** A terminating line that reads as 0 is accepted if and only if it has one or three characters. */
  lemma {:induction false} ZeroLine(f: string, z: string)
    requires 1 <= |z| <= LINE_MAX && NoCrlf(z) && Strtol16(z) == 0
    ensures NextChunk(f, z + CRLF + CRLF) == if |z| == 1 || |z| == 3 then Last(|z| + 2) else Invalid
  {
    var r := z + CRLF + CRLF;
    FindCrlfAfter(z, CRLF);
    assert r[..|z|] == z;
  }

  /** The line reads as -n, below -1, and that far before its end there is something to look at. */
  predicate Minus(f: string, z: string, n: nat) {
    && 1 <= |z| <= LINE_MAX && NoCrlf(z) && Strtol16(z) == 0 - n
    && 2 <= n < INT_SIZES && n <= |f| + |z| + 2
  }

  /** It is -2, which finds the CRLF of its own line, or it finds one before the line. */
  predicate Passes(f: string, z: string, n: nat)
    requires Minus(f, z, n)
  {
    n == 2 || (n > |z| + 2 && CrlfAt(f + z, |f| + |z| + 2 - n))
  }

  /** A negative size passes if and only if it finds one of those. */
  lemma {:induction false} SkewedExactly(f: string, z: string, m: string, n: nat)
    requires Minus(f, z, n)
    ensures NextChunk(f, z + CRLF + m) == if Passes(f, z, n) then Skewed(|z| + 2, n) else Invalid
  {
    var r := z + CRLF + m;
    FindCrlfAfter(z, m);
    assert r[..|z|] == z;
    assert f + r == f + z + CRLF + m;
  }

  /** What a size that passes does: in one read `n` bytes become payload, and cut after its line it faults. */
  lemma {:induction false} SkewedEitherWay(next: Recogniser, f: string, line: string, n: nat, m: string)
    requires Recognises(next) && line != "" && |m| >= n + 2
    requires next(f, line) == Skewed(|line|, n) && next(f, line + m) == Skewed(|line|, n)
    ensures var d := Decode(next, f + m[..n], m[n + 2..]);
            Decode(next, f, line + m) == d.(out := m[..n] + d.out)
    ensures DecodeReads(next, f, Start, [line, m]) == Decoded("", line, Fault)
  {
    var h := |line|;
    assert (line + m)[h..h + n] == m[..n] && (line + m)[h + n + 2..] == m[n + 2..];
    DecodeData(next, f, line + m, h, n, m[..n], m[n + 2..]);
    assert f + "" == f && "" + line == line && [line, m][0] == line;
    assert Later(next, f, Start, line) == Decoded("", line, Fault);
  }

  /**
   A negative size that passes depends on the reads: with enough bytes in the same read some of
   them become payload and two are dropped unseen, and cut after the line the source faults.
   */
  lemma {:induction false} SkewedDepends(f: string, z: string, n: nat, m: string)
    requires Minus(f, z, n) && Passes(f, z, n) && |m| >= n + 2
    ensures Recognises(NextChunk)
    ensures var d := Decode(NextChunk, f + m[..n], m[n + 2..]);
            Decode(NextChunk, f, z + CRLF + m) == d.(out := m[..n] + d.out)
    ensures DecodeReads(NextChunk, f, Start, [z + CRLF, m]) == Decoded("", z + CRLF, Fault)
  {
    NextChunkRecognises();
    SkewedExactly(f, z, m, n);
    SkewedExactly(f, z, "", n);
    assert z + CRLF + "" == z + CRLF;
    SkewedEitherWay(NextChunk, f, z + CRLF, n, m);
  }

  /** The size -2 passes after anything. */
  lemma {:induction false} MinusTwo(f: string, m: string)
    requires |m| >= 4
    ensures Recognises(NextChunk)
    ensures var d := Decode(NextChunk, f + m[..2], m[4..]);
            Decode(NextChunk, f, "-2" + CRLF + m) == d.(out := m[..2] + d.out)
    ensures DecodeReads(NextChunk, f, Start, ["-2" + CRLF, m]) == Decoded("", "-2" + CRLF, Fault)
  {
    ReadsAsMinus("2", 2);
    assert "-" + "2" == "-2";
    SkewedDepends(f, "-2", 2, m);
  }

  /** The size -6 passes after a CRLF, such as the end of the headers. */
  lemma {:induction false} MinusSix(f: string, m: string)
    requires |f| >= 2 && CrlfAt(f, |f| - 2) && |m| >= 8
    ensures Recognises(NextChunk)
    ensures var d := Decode(NextChunk, f + m[..6], m[8..]);
            Decode(NextChunk, f, "-6" + CRLF + m) == d.(out := m[..6] + d.out)
    ensures DecodeReads(NextChunk, f, Start, ["-6" + CRLF, m]) == Decoded("", "-6" + CRLF, Fault)
  {
    ReadsAsMinus("6", 6);
    assert "-" + "6" == "-6";
    SkewedDepends(f, "-6", 6, m);
  }

  lemma {:induction false} ReadsAsMinus(d: string, n: nat)
    requires |d| == 1 && IsHex(d[0]) && HexDigit(d[0]) == n
    ensures Strtol16("-" + d) == 0 - n
  {
    var t := "-" + d;
    assert t[1..] == d && d[1..] == "";
    assert HexValue(d, 0) == HexValue("", n) == n;
  }

  // ---------------------------------------------------------------- the decoder of the source

  /** What one call decodes from the undecoded bytes `r`, with `f` before them. */
  function DecodeRaw(f: string, r: string): (d: Decoded) {
    NextChunkRecognises();
    Decode(NextChunk, f, r)
  }

  /**
   For every list of chunks and every partition of any prefix of their stream into reads, the
   calls have decoded exactly the data of the `n` chunks that arrived, what is left is what
   came after those, less than another chunk, and only the end of the stream gives OK.
   */
  lemma {:induction false} AnyPartition(head: string, cs: seq<Sent>, k: nat, pieces: seq<string>)
      returns (n: nat, d: Decoded)
    requires GoodChunks(cs) && k <= |Stream(cs)|
    requires Concat(pieces) == Stream(cs)[..k]
    ensures Recognises(NextChunk) && d == DecodeReads(NextChunk, head, Start, pieces)
    ensures k == |Stream(cs)| ==> d == Decoded(DataOf(cs), "", Ok)
    ensures k < |Stream(cs)| ==>
              && d.status == More && n <= |cs| && d.out == DataOf(cs[..n])
              && Wires(cs[..n]) + d.rest == Stream(cs)[..k] && (n < |cs| ==> |d.rest| < |Wire(cs[n])|)
  {
    NextChunkRecognises();
    NextChunkKnows();
    AnyPartitionWith(NextChunk, head, cs, k, pieces);
    d := DecodeReads(NextChunk, head, Start, pieces);
    n := Arrived(cs, k);
  }

  lemma {:induction false} AnyPartitionWith(
      next: Recogniser, head: string, cs: seq<Sent>, k: nat, pieces: seq<string>)
    requires Recognises(next) && Knows(next)
    requires GoodChunks(cs) && k <= |Stream(cs)|
    requires Concat(pieces) == Stream(cs)[..k]
    ensures Agrees(DecodeReads(next, head, Start, pieces), Expected(cs, k))
  {
    StreamPrefix(next, head, cs, k);
    StraysExactly(next, head, Stream(cs)[..k]);
    PartitionAgrees(next, head, Stream(cs)[..k], pieces);
  }

  /**
   A whole stream is read as its data if and only if the headers did not end a read, unless
   there is no data to miss.
   */
  lemma {:induction false} BodyExactly(head: string, cs: seq<Sent>, pieces: seq<string>)
    requires GoodChunks(cs) && Concat(pieces) == Stream(cs)
    ensures pieces != [] && Recognises(NextChunk)
    ensures DecodeBody(NextChunk, head, pieces) == Decoded(if pieces[0] == "" then "" else DataOf(cs), "", Ok)
    ensures DecodeBody(NextChunk, head, pieces).out == DataOf(cs) <==> pieces[0] != "" || cs == []
  {
    assert Stream(cs)[..|Stream(cs)|] == Stream(cs);
    var n, d := AnyPartition(head, cs, |Stream(cs)|, pieces);
    if cs != [] {
      assert GoodChunk(cs[0]) && Unfold(true);
    }
  }

  /** The exact condition for the recogniser of the source, on every body after every head. */
  lemma {:induction false} SourceIsOneShotExactly(head: string, r: string)
    ensures Recognises(NextChunk) && (Independent(NextChunk, head, r) <==> !Strays(NextChunk, head, r))
  {
    NextChunkRecognises();
    NextChunkPrompt();
    OneShotExactly(NextChunk, head, r);
  }
}
