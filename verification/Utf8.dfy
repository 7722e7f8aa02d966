/**
 The UTF-8 decoder (include/fluent-bit/flb_utf8.h): an automaton fed one byte at a time,
 against the encoding of RFC 3629.  Masks and shifts are written on naturals.
 */
module Utf8 {
  import opened Bits

  type Byte = b: int | 0 <= b < 256

  const ACCEPT := 0
  const REJECT := 1

  // ---------------------------------------------------------------- the automaton

  /** The first 256 entries of the table: the class of a byte. */
  function TypeOf(b: Byte): (t: nat)
    ensures t < 12
  {
    if b < 0x80 then 0
    else if b < 0x90 then 1
    else if b < 0xa0 then 9
    else if b < 0xc0 then 7
    else if b < 0xc2 then 8
    else if b < 0xe0 then 2
    else if b == 0xe0 then 10
    else if b == 0xed then 4
    else if b < 0xf0 then 3
    else if b == 0xf0 then 11
    else if b < 0xf4 then 6
    else if b == 0xf4 then 5
    else 8
  }

  /** The rest of the table: the next state. */
  function Move(state: nat, t: nat): (s: nat)
    requires state < 9 && t < 12
    ensures s < 9
  {
    if state == 0 then
      if t == 0 then 0 else if t == 2 then 2 else if t == 3 then 3 else if t == 4 then 5
      else if t == 5 then 8 else if t == 6 then 7 else if t == 10 then 4 else if t == 11 then 6 else 1
    else if state == 2 && (t == 1 || t == 7 || t == 9) then 0
    else if state == 3 && (t == 1 || t == 7 || t == 9) then 2
    else if state == 4 && t == 7 then 2
    else if state == 5 && (t == 1 || t == 9) then 2
    else if state == 6 && (t == 7 || t == 9) then 3
    else if state == 7 && (t == 1 || t == 7 || t == 9) then 3
    else if state == 8 && t == 1 then 3
    else 1
  }

  datatype Dec = Dec(state: nat, codep: nat)

  /** One more than the mask that the class of a first byte leaves. */
  function Room(t: nat): (m: nat)
    requires t < 12
    ensures m > 0
  {
    if t == 0 then 256 else if t == 1 then 128 else if t == 2 then 64 else if t == 3 then 32 else if t == 4 then 16
    else if t == 5 then 8 else if t == 6 then 4 else if t == 7 then 2 else 1
  }

  /** One byte: the bits of a first byte, or six more bits. */
  function Step(d: Dec, b: Byte): (r: Dec)
    requires d.state < 9
    ensures r.state < 9
  {
    var t := TypeOf(b);
    Dec(Move(d.state, t), if d.state != ACCEPT then d.codep % 0x400_0000 * 64 + b % 64 else b % Room(t))
  }

  // ---------------------------------------------------------------- masks and shifts

  lemma {:induction false} SixBits(b: nat)
    ensures BitAnd(0x3f, b) == b % 64
  {
    assert Pow2(6) == 64;
    AndMask(6, b);
  }

  lemma {:induction false} OrSixBits(high: nat, low: nat)
    requires low < 64
    ensures BitOr(high * 64, low) == high * 64 + low
  {
    assert Pow2(6) == 64;
    OrDisjoint(high, 6, low);
  }

  /** A shift by six in 32 bits, and six bits in the gap. */
  lemma {:induction false} NextBits(codep: nat, b: Byte)
    ensures BitOr(codep * 64 % 0x1_0000_0000, BitAnd(0x3f, b)) == codep % 0x400_0000 * 64 + b % 64
  {
    SixBits(b);
    ShiftSix(codep);
    OrSixBits(codep % 0x400_0000, b % 64);
  }

  lemma ShiftSix(codep: nat)
    ensures codep * 64 % 0x1_0000_0000 == codep % 0x400_0000 * 64
  {
    var q, r := codep / 0x400_0000, codep % 0x400_0000;
    assert codep * 64 == q * 0x1_0000_0000 + r * 64;
  }

  lemma {:induction false} PowersTo8()
    ensures Pow2(0) == 1 && Pow2(1) == 2 && Pow2(2) == 4 && Pow2(3) == 8 && Pow2(4) == 16
    ensures Pow2(5) == 32 && Pow2(6) == 64 && Pow2(7) == 128 && Pow2(8) == 256
  {
  }

  /** What a shift of 0xff by the class leaves. */
  function Mask(t: nat): (m: nat)
    requires t < 12
    ensures m == Room(t) - 1
  {
    PowersTo8();
    assert Pow2(9) == 512 && Pow2(10) == 1024 && Pow2(11) == 2048;
    0xff / Pow2(t)
  }

  lemma {:induction false} FirstBits(t: nat, b: nat)
    requires t < 12
    ensures BitAnd(Room(t) - 1, b) == b % Room(t)
  {
    PowersTo8();
    AndMask(if t <= 8 then 8 - t else 0, b);
  }

  /** The two expressions of `flb_utf8_decode`, with the masks and shifts of the source. */
  function NextPoint(codep: nat, b: Byte): (r: nat)
    ensures r == codep % 0x400_0000 * 64 + b % 64
  {
    NextBits(codep, b);
    BitOr(codep * 64 % 0x1_0000_0000, BitAnd(0x3f, b))
  }

  function FirstPoint(t: nat, b: Byte): (r: nat)
    requires t < 12
    ensures r == b % Room(t)
  {
    FirstBits(t, b);
    BitAnd(Mask(t), b)
  }

  // ---------------------------------------------------------------- RFC 3629

  /** A code point that is not a surrogate. */
  predicate Scalar(v: nat) { v < 0xd800 || 0xe000 <= v < 0x11_0000 }

  function Tail(x: nat): (b: Byte)
    ensures 0x80 <= b < 0xc0
  {
    0x80 + x % 64
  }

  /** Section 3 of RFC 3629. */
  function Encode(v: nat): (bs: seq<Byte>)
    requires Scalar(v)
    ensures 1 <= |bs| <= 4
  {
    if v < 0x80 then [v]
    else if v < 0x800 then [0xc0 + v / 64, Tail(v)]
    else if v < 0x1_0000 then [0xe0 + v / 0x1000, Tail(v / 64), Tail(v)]
    else [0xf0 + v / 0x4_0000, Tail(v / 0x1000), Tail(v / 64), Tail(v)]
  }

  function EncodeAll(vs: seq<nat>): (bs: seq<Byte>)
    requires forall i :: 0 <= i < |vs| ==> Scalar(vs[i])
    decreases |vs|
  {
    if vs == [] then [] else Encode(vs[0]) + EncodeAll(vs[1..])
  }

  predicate IsTail(b: Byte) { 0x80 <= b <= 0xbf }

  /** The grammar in section 4 of RFC 3629. */
  predicate WellFormed(s: seq<Byte>) {
    || (|s| == 1 && s[0] <= 0x7f)
    || (|s| == 2 && 0xc2 <= s[0] <= 0xdf && IsTail(s[1]))
    || (|s| == 3 && IsTail(s[2]) &&
        (|| (s[0] == 0xe0 && 0xa0 <= s[1] <= 0xbf)
         || (0xe1 <= s[0] <= 0xec && IsTail(s[1]))
         || (s[0] == 0xed && 0x80 <= s[1] <= 0x9f)
         || (0xee <= s[0] <= 0xef && IsTail(s[1]))))
    || (|s| == 4 && IsTail(s[2]) && IsTail(s[3]) &&
        (|| (s[0] == 0xf0 && 0x90 <= s[1] <= 0xbf)
         || (0xf1 <= s[0] <= 0xf3 && IsTail(s[1]))
         || (s[0] == 0xf4 && 0x80 <= s[1] <= 0x8f)))
  }

  function Low(b: Byte): (x: nat) { b % 64 }

  function Lead(b: Byte, base: nat): (x: int) { b - base }

  /** The bits a well-formed sequence carries. */
  function Value(s: seq<Byte>): (v: nat)
    requires WellFormed(s)
  {
    if |s| == 1 then s[0]
    else if |s| == 2 then Lead(s[0], 0xc0) * 64 + Low(s[1])
    else if |s| == 3 then Lead(s[0], 0xe0) * 0x1000 + Low(s[1]) * 64 + Low(s[2])
    else Lead(s[0], 0xf0) * 0x4_0000 + Low(s[1]) * 0x1000 + Low(s[2]) * 64 + Low(s[3])
  }

  /** The grammar describes exactly the encodings of scalar values. */
  lemma {:induction false} EncodeIsWellFormed(v: nat)
    requires Scalar(v)
    ensures WellFormed(Encode(v)) && Value(Encode(v)) == v
  {
    if v < 0x800 {
    } else if v < 0x1_0000 {
      EncodeThree(v);
    } else {
      EncodeFour(v);
    }
  }

  lemma EncodeThree(v: nat)
    requires Scalar(v) && 0x800 <= v < 0x1_0000
    ensures WellFormed(Encode(v)) && Value(Encode(v)) == v
  {
    assert v / 64 / 64 == v / 0x1000;
  }

  lemma EncodeFour(v: nat)
    requires Scalar(v) && 0x1_0000 <= v
    ensures WellFormed(Encode(v)) && Value(Encode(v)) == v
  {
    var w, x, y, z := v / 0x4_0000, v / 0x1000 % 64, v / 64 % 64, v % 64;
    assert v / 64 / 64 == v / 0x1000 && v / 0x1000 / 64 == w;
    assert v == w * 0x4_0000 + x * 0x1000 + y * 64 + z;
    assert w == 0 ==> x >= 16;
  }

  /** The digits of a number in base 64. */
  lemma Sixties(w: nat, x: nat, y: nat, z: nat)
    requires x < 64 && y < 64 && z < 64
    ensures var v := w * 0x4_0000 + x * 0x1000 + y * 64 + z;
            v % 64 == z && v / 64 % 64 == y && v / 0x1000 % 64 == x && v / 0x4_0000 == w
  {
    var v := w * 0x4_0000 + x * 0x1000 + y * 64 + z;
    assert v / 64 == w * 0x1000 + x * 64 + y && v / 0x1000 == w * 64 + x;
  }

  lemma ThreeIsEncode(s: seq<Byte>)
    requires WellFormed(s) && |s| == 3
    ensures Scalar(Value(s)) && Encode(Value(s)) == s
  {
    var x, y, z := Lead(s[0], 0xe0), Low(s[1]), Low(s[2]);
    var v := Value(s);
    Sixties(0, x, y, z);
    assert 0x800 <= v < 0x1_0000 && v / 0x1000 == x;
    assert [0xe0 + x, Tail(v / 64), Tail(v)] == s;
  }

  lemma FourIsEncode(s: seq<Byte>)
    requires WellFormed(s) && |s| == 4
    ensures Scalar(Value(s)) && Encode(Value(s)) == s
  {
    var w, x, y, z := Lead(s[0], 0xf0), Low(s[1]), Low(s[2]), Low(s[3]);
    var v := Value(s);
    Sixties(w, x, y, z);
    assert 0x1_0000 <= v < 0x11_0000;
    assert [0xf0 + w, Tail(v / 0x1000), Tail(v / 64), Tail(v)] == s;
  }

  lemma {:induction false} WellFormedIsEncode(s: seq<Byte>)
    requires WellFormed(s)
    ensures Scalar(Value(s)) && Encode(Value(s)) == s
  {
    if |s| == 3 {
      ThreeIsEncode(s);
    } else if |s| == 4 {
      FourIsEncode(s);
    }
  }

  // ---------------------------------------------------------------- the automaton over a string

  function After(d: Dec, bs: seq<Byte>): (r: Dec)
    requires d.state < 9
    ensures r.state < 9
    decreases |bs|
  {
    if bs == [] then d else After(Step(d, bs[0]), bs[1..])
  }

  /** The code points read off whenever the automaton returns to ACCEPT. */
  function Points(d: Dec, bs: seq<Byte>): (vs: seq<nat>)
    requires d.state < 9
    decreases |bs|
  {
    if bs == [] then []
    else
      var e := Step(d, bs[0]);
      (if e.state == ACCEPT then [e.codep] else []) + Points(e, bs[1..])
  }

  /** A rejected string stays rejected. */
  lemma {:induction false} RejectAbsorbs(d: Dec, bs: seq<Byte>)
    requires d.state == REJECT
    ensures After(d, bs).state == REJECT && Points(d, bs) == []
    decreases |bs|
  {
    if bs != [] {
      RejectAbsorbs(Step(d, bs[0]), bs[1..]);
    }
  }

  /** The state is reached from `d` by the whole of `s`, and by no shorter part of it is ACCEPT reached. */
  predicate Reads(d: Dec, s: seq<Byte>, v: nat)
    requires d.state < 9
    decreases |s|
  {
    && s != []
    && var e := Step(d, s[0]);
    if |s| == 1 then e == Dec(ACCEPT, v) else e.state != ACCEPT && Reads(e, s[1..], v)
  }

  lemma {:induction false} ReadsOn(d: Dec, s: seq<Byte>, v: nat, rest: seq<Byte>)
    requires d.state < 9 && Reads(d, s, v)
    ensures After(d, s + rest) == After(Dec(ACCEPT, v), rest)
    ensures Points(d, s + rest) == [v] + Points(Dec(ACCEPT, v), rest)
    decreases |s|
  {
    assert (s + rest)[1..] == s[1..] + rest;
    if |s| > 1 {
      ReadsOn(Step(d, s[0]), s[1..], v, rest);
    } else {
      assert s[1..] + rest == rest;
    }
  }

  /** One tail byte to go. */
  lemma {:induction false} ReadsOneTail(d: Dec, s: seq<Byte>)
    requires d.state == 2 && d.codep < 0x400_0000 && |s| == 1 && IsTail(s[0])
    ensures Reads(d, s, d.codep * 64 + Low(s[0]))
  {
  }

  /** Two tail bytes to go. */
  lemma {:induction false} ReadsTwoTails(d: Dec, s: seq<Byte>)
    requires d.state == 3 && d.codep < 0x10_0000 && |s| == 2 && IsTail(s[0]) && IsTail(s[1])
    ensures Reads(d, s, d.codep * 0x1000 + Low(s[0]) * 64 + Low(s[1]))
  {
    ReadsOneTail(Step(d, s[0]), s[1..]);
  }

  /** The first two bytes of a sequence of four. */
  lemma {:induction false} FirstOfFour(d: Dec, s: seq<Byte>)
    requires d.state == ACCEPT && WellFormed(s) && |s| == 4
    ensures var d1 := Step(d, s[0]);
            d1.state != ACCEPT && Step(d1, s[1]) == Dec(3, Lead(s[0], 0xf0) * 64 + Low(s[1]))
  {
    assert 0xf0 <= s[0] <= 0xf4;
  }

  lemma {:induction false} FirstOfThree(d: Dec, s: seq<Byte>)
    requires d.state == ACCEPT && WellFormed(s) && |s| == 3
    ensures var d1 := Step(d, s[0]);
            d1.state != ACCEPT && Step(d1, s[1]) == Dec(2, Lead(s[0], 0xe0) * 64 + Low(s[1]))
  {
    assert 0xe0 <= s[0] <= 0xef;
  }

  /** From ACCEPT the automaton reads every well-formed sequence and yields its value. */
  lemma {:induction false} ReadsWellFormed(d: Dec, s: seq<Byte>)
    requires d.state == ACCEPT && WellFormed(s)
    ensures Reads(d, s, Value(s))
  {
    var d1 := Step(d, s[0]);
    if |s| == 2 {
      ReadsOneTail(d1, s[1..]);
    } else if |s| == 3 {
      FirstOfThree(d, s);
      ReadsOneTail(Step(d1, s[1]), s[2..]);
      assert s[1..][1..] == s[2..];
    } else if |s| == 4 {
      FirstOfFour(d, s);
      ReadsTwoTails(Step(d1, s[1]), s[2..]);
      assert s[1..][1..] == s[2..];
    }
  }

  // ---------------------------------------------------------------- what the automaton accepts

  /** A string that ends in ACCEPT is not rejected by its first byte. */
  lemma {:induction false} StaysAlive(d: Dec, bs: seq<Byte>)
    requires d.state < 9 && After(d, bs).state == ACCEPT
    ensures bs == [] ==> d.state == ACCEPT
    ensures bs != [] ==> Step(d, bs[0]).state != REJECT && After(Step(d, bs[0]), bs[1..]).state == ACCEPT
  {
    if bs != [] && Step(d, bs[0]).state == REJECT {
      RejectAbsorbs(Step(d, bs[0]), bs[1..]);
    }
  }

  lemma {:induction false} NeedsOneTail(d: Dec, bs: seq<Byte>)
    requires d.state == 2 && After(d, bs).state == ACCEPT
    ensures |bs| >= 1 && IsTail(bs[0])
  {
    StaysAlive(d, bs);
  }

  lemma {:induction false} NeedsTwoTails(d: Dec, bs: seq<Byte>)
    requires d.state == 3 && After(d, bs).state == ACCEPT
    ensures |bs| >= 2 && IsTail(bs[0]) && IsTail(bs[1])
  {
    StaysAlive(d, bs);
    NeedsOneTail(Step(d, bs[0]), bs[1..]);
  }

  lemma {:induction false} BeginsThree(d: Dec, bs: seq<Byte>)
    requires d.state == ACCEPT && bs != [] && After(d, bs).state == ACCEPT && Step(d, bs[0]).state in {3, 4, 5}
    ensures |bs| >= 3 && WellFormed(bs[..3])
  {
    var d1 := Step(d, bs[0]);
    StaysAlive(d1, bs[1..]);
    NeedsOneTail(Step(d1, bs[1]), bs[1..][1..]);
  }

  lemma {:induction false} BeginsFour(d: Dec, bs: seq<Byte>)
    requires d.state == ACCEPT && bs != [] && After(d, bs).state == ACCEPT && Step(d, bs[0]).state in {6, 7, 8}
    ensures |bs| >= 4 && WellFormed(bs[..4])
  {
    var d1 := Step(d, bs[0]);
    StaysAlive(d1, bs[1..]);
    NeedsTwoTails(Step(d1, bs[1]), bs[1..][1..]);
  }

  /** From ACCEPT, a string that ends in ACCEPT begins with a well-formed sequence. */
  lemma {:induction false} BeginsWellFormed(d: Dec, bs: seq<Byte>) returns (n: nat)
    requires d.state == ACCEPT && bs != [] && After(d, bs).state == ACCEPT
    ensures 1 <= n <= |bs| && WellFormed(bs[..n])
  {
    StaysAlive(d, bs);
    var d1 := Step(d, bs[0]);
    if d1.state == ACCEPT {
      n := 1;
    } else if d1.state == 2 {
      NeedsOneTail(d1, bs[1..]);
      n := 2;
    } else if d1.state <= 5 {
      BeginsThree(d, bs);
      n := 3;
    } else {
      BeginsFour(d, bs);
      n := 4;
    }
  }

  predicate AllScalar(vs: seq<nat>) { forall i :: 0 <= i < |vs| ==> Scalar(vs[i]) }

  lemma {:induction false} EncodeOn(d: Dec, v: nat, rest: seq<Byte>)
    requires d.state == ACCEPT && Scalar(v)
    ensures After(d, Encode(v) + rest) == After(Dec(ACCEPT, v), rest)
    ensures Points(d, Encode(v) + rest) == [v] + Points(Dec(ACCEPT, v), rest)
  {
    EncodeIsWellFormed(v);
    ReadsWellFormed(d, Encode(v));
    ReadsOn(d, Encode(v), v, rest);
  }

  /** Decoding the encoding of any scalar values gives them back. */
  lemma {:induction false} DecodeEncode(d: Dec, vs: seq<nat>)
    requires d.state == ACCEPT && AllScalar(vs)
    ensures After(d, EncodeAll(vs)).state == ACCEPT && Points(d, EncodeAll(vs)) == vs
    decreases |vs|
  {
    if vs != [] {
      EncodeOn(d, vs[0], EncodeAll(vs[1..]));
      DecodeEncode(Dec(ACCEPT, vs[0]), vs[1..]);
    }
  }

  /** What is accepted is the encoding of the code points read off. */
  lemma {:induction false} AcceptedIsEncoded(d: Dec, bs: seq<Byte>)
    requires d.state == ACCEPT && After(d, bs).state == ACCEPT
    ensures AllScalar(Points(d, bs)) && EncodeAll(Points(d, bs)) == bs
    decreases |bs|
  {
    if bs != [] {
      var n := BeginsWellFormed(d, bs);
      var s, rest := bs[..n], bs[n..];
      var v := Value(s);
      assert bs == s + rest;
      WellFormedIsEncode(s);
      ReadsWellFormed(d, s);
      ReadsOn(d, s, v, rest);
      AcceptedIsEncoded(Dec(ACCEPT, v), rest);
      assert ([v] + Points(Dec(ACCEPT, v), rest))[1..] == Points(Dec(ACCEPT, v), rest);
    }
  }

  /** A string is accepted if and only if it is UTF-8. */
  ghost predicate IsUtf8(bs: seq<Byte>) { exists vs :: AllScalar(vs) && EncodeAll(vs) == bs }

  lemma {:induction false} AcceptsExactlyUtf8(d: Dec, bs: seq<Byte>)
    requires d.state == ACCEPT
    ensures After(d, bs).state == ACCEPT <==> IsUtf8(bs)
  {
    if After(d, bs).state == ACCEPT {
      AcceptedIsEncoded(d, bs);
    }
    if IsUtf8(bs) {
      var vs :| AllScalar(vs) && EncodeAll(vs) == bs;
      DecodeEncode(d, vs);
    }
  }

  // ---------------------------------------------------------------- the decoder of the source

  class Decoder {
    var state: nat
    var codep: nat

    constructor ()
      ensures state == ACCEPT
    {
      state := ACCEPT;
    }

    /** `flb_utf8_decode`. */
    method Decode(b: Byte) returns (s: nat)
      requires state < 9
      modifies this
      ensures Dec(state, codep) == Step(old(Dec(state, codep)), b) && s == state
    {
      var t := TypeOf(b);
      codep := if state != ACCEPT then NextPoint(codep, b) else FirstPoint(t, b);
      state := Move(state, t);
      s := state;
    }
  }

  /** The loop of `flb_utf8_print`: the code points it prints, and whether it finds the string well-formed. */
  method Print(bs: seq<Byte>) returns (points: seq<nat>, ok: bool)
    ensures ok <==> IsUtf8(bs)
    ensures ok ==> AllScalar(points) && EncodeAll(points) == bs
  {
    var d := new Decoder();
    ghost var start := Dec(d.state, d.codep);
    points := [];
    var i := 0;
    while i < |bs|
      invariant i <= |bs| && d.state < 9 && fresh(d)
      invariant After(Dec(d.state, d.codep), bs[i..]) == After(start, bs)
      invariant points + Points(Dec(d.state, d.codep), bs[i..]) == Points(start, bs)
    {
      assert bs[i..][0] == bs[i] && bs[i..][1..] == bs[i + 1..];
      var s := d.Decode(bs[i]);
      if s == ACCEPT {
        points := points + [d.codep];
      }
      i := i + 1;
    }
    assert bs[i..] == [] && points == Points(start, bs);
    ok := d.state == ACCEPT;
    AcceptsExactlyUtf8(start, bs);
    if ok {
      AcceptedIsEncoded(start, bs);
    }
  }
}
