/**
 Decimal text of unsigned numbers: the two-digits-at-a-time printer of
 src/flb_parser.c against one-digit-at-a-time printing.
 */
module Decimal {

  function Digit(d: nat): (c: char)
    requires d < 10
    ensures '0' <= c <= '9' && c as int == '0' as int + d
  {
    '0' + d as char
  }

  /** Canonical decimal text, one digit at a time. */
  function Dec(n: nat): (s: string)
    ensures |s| >= 1
    ensures forall i :: 0 <= i < |s| ==> '0' <= s[i] <= '9'
  {
    if n < 10 then [Digit(n)] else Dec(n / 10) + [Digit(n % 10)]
  }

  predicate AllDigits(s: string) { forall i :: 0 <= i < |s| ==> '0' <= s[i] <= '9' }

  /** The number a digit string denotes. */
  function ValueOf(s: string): (n: nat)
    requires AllDigits(s)
  {
    if s == [] then 0
    else 10 * ValueOf(s[..|s| - 1]) + (s[|s| - 1] as int - '0' as int)
  }

  lemma {:induction false} DecDenotes(n: nat)
    ensures ValueOf(Dec(n)) == n
    ensures n > 0 ==> Dec(n)[0] != '0'
    decreases n
  {
    if n >= 10 {
      DecDenotes(n / 10);
      assert Dec(n)[..|Dec(n)| - 1] == Dec(n / 10);
    }
  }

  /** Where the digits from `i` on end. */
  function DigitsEnd(js: string, i: nat): (j: nat)
    requires i <= |js|
    ensures i <= j <= |js|
    ensures AllDigits(js[i..j])
    ensures j < |js| ==> !('0' <= js[j] <= '9')
    decreases |js| - i
  {
    if i < |js| && '0' <= js[i] <= '9' then
      var j := DigitsEnd(js, i + 1);
      assert js[i..j] == [js[i]] + js[i + 1..j];
      j
    else i
  }

  lemma {:induction false} DigitsEndAt(js: string, i: nat, e: nat)
    requires i <= e < |js| && AllDigits(js[i..e]) && !('0' <= js[e] <= '9')
    ensures DigitsEnd(js, i) == e
    decreases e - i
  {
    if i < e {
      assert js[i] == js[i..e][0] && js[i + 1..e] == js[i..e][1..];
      DigitsEndAt(js, i + 1, e);
    }
  }

  function Digits10(v: nat): (n: nat) {
    if v < 10 then 1
    else if v < 100 then 2
    else if v < 1000 then 3
    else if v < 1000000000000 then
      if v < 100000000 then
        if v < 1000000 then
          if v < 10000 then 4 else if v >= 100000 then 6 else 5
        else if v >= 10000000 then 8 else 7
      else if v < 10000000000 then
        if v >= 1000000000 then 10 else 9
      else if v >= 100000000000 then 12 else 11
    else 12 + Digits10(v / 1000000000000)
  }

  function Pow10(k: nat): (p: nat) ensures p > 0 { if k == 0 then 1 else 10 * Pow10(k - 1) }

  lemma {:induction false} LengthAbove(v: nat, k: nat)
    requires v >= Pow10(k)
    ensures |Dec(v)| > k
    decreases k
  {
    if k > 0 {
      LengthAbove(v / 10, k - 1);
    }
  }

  lemma {:induction false} DropThree(v: nat)
    requires v >= 1000
    ensures |Dec(v)| == 3 + |Dec(v / 1000)|
  {
    assert v / 10 / 10 / 10 == v / 1000;
    assert |Dec(v)| == 1 + |Dec(v / 10)|;
    assert |Dec(v / 10)| == 1 + |Dec(v / 10 / 10)|;
  }

  lemma {:induction false} DropTwelve(v: nat)
    requires v >= 1000000000000
    ensures |Dec(v)| == 12 + |Dec(v / 1000000000000)|
  {
    DropThree(v);
    DropThree(v / 1000);
    DropThree(v / 1000 / 1000);
    DropThree(v / 1000 / 1000 / 1000);
    assert v / 1000 / 1000 / 1000 / 1000 == v / 1000000000000;
  }

  lemma {:induction false} LengthBelow(v: nat, k: nat)
    requires v < Pow10(k) && k > 0
    ensures |Dec(v)| <= k
    decreases k
  {
    if v >= 10 && k > 1 {
      LengthBelow(v / 10, k - 1);
    }
  }

  lemma {:induction false} LengthExact(v: nat, k: nat)
    requires k > 0 && Pow10(k - 1) <= v < Pow10(k)
    ensures |Dec(v)| == k
  {
    LengthAbove(v, k - 1);
    LengthBelow(v, k);
  }

  /** The comparison tree computes the length of the decimal text. */
  lemma {:induction false} Digits10IsLength(v: nat)
    ensures Digits10(v) == |Dec(v)|
    decreases v
  {
    assert Pow10(1) == 10 && Pow10(2) == 100 && Pow10(3) == 1000 && Pow10(4) == 10000;
    assert Pow10(5) == 100000 && Pow10(6) == 1000000 && Pow10(7) == 10000000 && Pow10(8) == 100000000;
    assert Pow10(9) == 1000000000 && Pow10(10) == 10000000000 && Pow10(11) == 100000000000;
    assert Pow10(12) == 1000000000000;
    if v >= 1000000000000 {
      DropTwelve(v);
      Digits10IsLength(v / 1000000000000);
    } else if v >= 10 {
      LengthExact(v, Digits10(v));
    }
  }

  /** The 200-character pair table "00", "01", ..., "99", by the rule its literal lists. */
  function PairDigit(i: nat): (c: char)
    requires i < 200
  {
    if i % 2 == 0 then Digit(i / 2 / 10) else Digit(i / 2 % 10)
  }

  lemma {:induction false} DecByHundreds(v: nat)
    requires v >= 100
    ensures Dec(v) == Dec(v / 100) + [Digit(v % 100 / 10), Digit(v % 100 % 10)]
  {
    assert v / 10 / 10 == v / 100 && v / 10 % 10 == v % 100 / 10 && v % 100 % 10 == v % 10;
  }

  /** Writes the pair for `k` so that its last digit is at `next`. */
  method PutPair(dst: array<char>, next: nat, k: nat)
    requires 1 <= next < dst.Length && k < 100
    modifies dst
    ensures dst[..next - 1] == old(dst[..next - 1])
    ensures dst[next - 1..] == [Digit(k / 10), Digit(k % 10)] + old(dst[next + 1..])
  {
    var i := k * 2;
    dst[next] := PairDigit(i + 1);
    dst[next - 1] := PairDigit(i);
  }

  /** The last one or two digits. */
  method PutLast(dst: array<char>, next: nat, value: nat)
    requires value < 100 && next + 1 == |Dec(value)| <= dst.Length
    modifies dst
    ensures dst[..] == Dec(value) + old(dst[next + 1..])
  {
    if value < 10 {
      dst[next] := '0' + value as char;
    } else {
      assert Dec(value) == [Digit(value / 10), Digit(value % 10)];
      PutPair(dst, next, value);
    }
  }

  /** `u64_to_str`: two digits at a time, from the right. */
  method U64ToStr(v: nat, dst: array<char>) returns (length: nat)
    requires Digits10(v) <= dst.Length
    modifies dst
    ensures length == Digits10(v) == |Dec(v)|
    ensures dst[..] == Dec(v) + old(dst[Digits10(v)..])
  {
    Digits10IsLength(v);
    length := Digits10(v);
    var value, next := v, length - 1;
    while value >= 100
      invariant next + 1 == |Dec(value)| <= dst.Length
      invariant Dec(v) + old(dst[length..]) == Dec(value) + dst[next + 1..]
      decreases value
    {
      DecByHundreds(value);
      PutPair(dst, next, value % 100);
      value, next := value / 100, next - 2;
    }
    PutLast(dst, next, value);
  }
}
