/**
 The wait before a retry (src/flb_scheduler.c): a random number of seconds, uniform up to a
 bound that doubles with every attempt and is capped.
 */
module Backoff {
  import opened Bits
  import opened Wrappers

  const RAND_MAX := 2147483647
  const BASE := 5    // FLB_SCHED_BASE
  const CAP := 2000  // FLB_SCHED_CAP

  // ---------------------------------------------------------------- random_uniform

  /** Random numbers that lead to the same outcome. */
  function Copies(min: int, max: int): (c: nat)
    requires min <= max && max - min < RAND_MAX
    ensures c >= 1 && (max - min + 1) * c <= RAND_MAX
  {
    var range := max - min + 1;
    Quotient(range);
    RAND_MAX / range
  }

  lemma Quotient(range: int)
    requires 1 <= range <= RAND_MAX
    ensures RAND_MAX / range >= 1 && range * (RAND_MAX / range) <= RAND_MAX
  {
    var c := RAND_MAX / range;
    assert RAND_MAX == range * c + RAND_MAX % range;
    assert c <= 0 ==> range * c <= 0;
  }

  /** A random number below the largest multiple of the range is kept. */
  predicate Kept(min: int, max: int, ra: int)
    requires min <= max && max - min < RAND_MAX
  {
    0 <= ra < (max - min + 1) * Copies(min, max)
  }

  function Outcome(min: int, max: int, ra: int): (x: int)
    requires min <= max && max - min < RAND_MAX && Kept(min, max, ra)
    ensures min <= x <= max
  {
    Below(ra, max - min + 1, Copies(min, max));
    ra / Copies(min, max) + min
  }

  lemma Below(ra: int, range: int, copies: int)
    requires copies >= 1 && 0 <= ra < range * copies
    ensures 0 <= ra / copies < range
  {
    var q := ra / copies;
    assert q >= range ==> q * copies >= range * copies;
  }

  predicate FirstKept(min: int, max: int, draws: seq<int>, i: int)
    requires min <= max && max - min < RAND_MAX
  {
    0 <= i < |draws| && Kept(min, max, draws[i]) && forall j :: 0 <= j < i ==> !Kept(min, max, draws[j])
  }

  /** The loop over `rand`: the first number that is kept decides; None if there is none among `draws`. */
  method RandomUniform(min: int, max: int, draws: seq<int>) returns (x: Option<int>)
    requires min <= max && max - min < RAND_MAX
    requires forall i :: 0 <= i < |draws| ==> 0 <= draws[i] <= RAND_MAX
    ensures x.Some? <==> exists i :: 0 <= i < |draws| && Kept(min, max, draws[i])
    ensures x.Some? ==> exists i :: FirstKept(min, max, draws, i) && x.value == Outcome(min, max, draws[i])
    ensures x.Some? ==> min <= x.value <= max
  {
    var range := max - min + 1;
    Quotient(range);
    var copies := RAND_MAX / range;
    var limit := range * copies;
    var ra, n := -1, 0;
    while ra < 0 || ra >= limit
      invariant 0 <= n <= |draws|
      invariant n == 0 ==> ra == -1
      invariant n > 0 ==> ra == draws[n - 1]
      invariant forall j :: 0 <= j < n - 1 ==> !Kept(min, max, draws[j])
      decreases |draws| - n
    {
      if n == |draws| {
        return None;
      }
      ra := draws[n];
      n := n + 1;
    }
    assert FirstKept(min, max, draws, n - 1);
    Below(ra, range, copies);
    x := Some(ra / copies + min);
  }

  predicate InInterval(lo: int, n: nat, ra: int) { lo <= ra < lo + n }

  function Interval(lo: int, n: nat): (s: set<int>) { set ra | lo <= ra < lo + n && InInterval(lo, n, ra) }

  lemma {:induction false} IntervalSize(lo: int, n: nat)
    ensures |Interval(lo, n)| == n
    decreases n
  {
    if n > 0 {
      IntervalSize(lo, n - 1);
      assert Interval(lo, n) == Interval(lo, n - 1) + {lo + n - 1};
    }
  }

  /** The random numbers that are kept and lead to `x`. */
  ghost function Leads(min: int, max: int, x: int): (s: set<int>)
    requires min <= max && max - min < RAND_MAX
  {
    set ra | 0 <= ra <= RAND_MAX && Kept(min, max, ra) && Outcome(min, max, ra) == x
  }

  lemma QuotientIs(ra: int, c: int, q: int)
    requires c >= 1
    ensures ra / c == q <==> q * c <= ra < q * c + c
  {
    var d := ra / c;
    assert ra == d * c + ra % c;
    assert d < q ==> d * c <= (q - 1) * c;
    assert d > q ==> d * c >= (q + 1) * c;
  }

  lemma Within(k: int, range: int, c: int)
    requires 0 <= k < range && c >= 1
    ensures 0 <= k * c && k * c + c <= range * c
  {
    assert (k + 1) * c <= range * c;
  }

  /** Uniform: every outcome between the bounds is reached from equally many random numbers. */
  lemma EachOutcomeAlike(min: int, max: int, x: int)
    requires min <= x <= max && max - min < RAND_MAX
    ensures |Leads(min, max, x)| == Copies(min, max)
  {
    var c, k := Copies(min, max), x - min;
    Within(k, max - min + 1, c);
    forall ra | Kept(min, max, ra) ensures Outcome(min, max, ra) == x <==> k * c <= ra < k * c + c {
      QuotientIs(ra, c, k);
    }
    assert Leads(min, max, x) == Interval(k * c, c);
    IntervalSize(k * c, c);
  }

  // ---------------------------------------------------------------- backoff_full_jitter

  predicate FitsInt(x: int) { -0x8000_0000 <= x < 0x8000_0000 }

  /** The bound on the wait for attempt `n`. */
  function Bound(n: nat): (b: nat) { if Pow2(n) * BASE < CAP then Pow2(n) * BASE else CAP }

  lemma {:induction false} Pow2Grows(m: nat, n: nat)
    requires m <= n
    ensures Pow2(m) <= Pow2(n)
    decreases n - m
  {
    if m < n {
      Pow2Grows(m + 1, n);
    }
  }

  lemma Pow2At28()
    ensures Pow2(28) == 0x1000_0000 && Pow2(29) == 0x2000_0000
  {
    assert Pow2(8) == 0x100 && Pow2(16) == 0x1_0000 && Pow2(24) == 0x100_0000;
  }

  /** The product the source forms before capping it fits an int up to 28 attempts, and no further. */
  lemma {:induction false} ProductFits(n: nat)
    ensures FitsInt(Pow2(n) * BASE) <==> n <= 28
  {
    Pow2At28();
    if n <= 28 {
      Pow2Grows(n, 28);
    } else {
      Pow2Grows(29, n);
    }
  }

  /**
   A retry waits at least 0 and at most 5 * 2^n seconds, never more than the cap: the outcome of
   the first random number that is kept, so every wait is as likely as any other.
   */
  method BackoffFullJitter(n: nat, draws: seq<int>) returns (seconds: Option<int>)
    requires FitsInt(Pow2(n) * BASE)
    requires forall i :: 0 <= i < |draws| ==> 0 <= draws[i] <= RAND_MAX
    ensures seconds.Some? <==> exists i :: 0 <= i < |draws| && Kept(0, Bound(n), draws[i])
    ensures seconds.Some? ==> exists i :: FirstKept(0, Bound(n), draws, i) &&
                                          seconds.value == Outcome(0, Bound(n), draws[i])
    ensures seconds.Some? ==> 0 <= seconds.value <= Bound(n) <= CAP
  {
    var product := Pow2(n) * BASE;
    var exp := if CAP < product then CAP else product;
    seconds := RandomUniform(0, exp, draws);
  }

  /** Every wait up to the bound is reached from equally many random numbers. */
  lemma EachWaitAlike(n: nat, x: nat)
    requires x <= Bound(n)
    ensures |Leads(0, Bound(n), x)| == Copies(0, Bound(n))
  {
    EachOutcomeAlike(0, Bound(n), x);
  }

  /** The bound doubles with every attempt until it is capped, from the ninth attempt on. */
  lemma {:induction false} BoundDoubles(n: nat)
    ensures n < 8 ==> Bound(n + 1) == 2 * Bound(n)
    ensures n >= 9 ==> Bound(n) == CAP
    ensures Bound(n) <= Bound(n + 1)
  {
    assert Pow2(8) == 256;
    if n < 8 {
      Pow2Grows(n + 1, 8);
    } else {
      Pow2Grows(9, n + 1);
      if n >= 9 {
        Pow2Grows(9, n);
      }
    }
  }
}
