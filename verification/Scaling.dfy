/** Decimal scaling of an amount between two tokens, with the source's uint64 power loop. */
module Scaling {
  import opened Types

  function Pow10(n: nat): (p: nat)
    ensures p >= 1
  {
    if n == 0 then 1 else 10 * Pow10(n - 1)
  }

  /** What n rounds of `p = p * 10` on a uint64 leave. */
  function WrappedPow10(n: nat): (p: nat)
    ensures p < TWO64
  {
    if n == 0 then 1 else WrappedPow10(n - 1) * 10 % TWO64
  }

  /** The loop itself. */
  method PowerLoop(gap: nat) returns (p: nat)
    ensures p == WrappedPow10(gap)
    ensures p == Pow10(gap) <==> gap <= 19
  {
    p := 1;
    var i := 0;
    while i < gap
      invariant i <= gap
      invariant p == WrappedPow10(i)
    {
      p := p * 10 % TWO64;
      i := i + 1;
    }
    WrapsExactlyFrom20(gap);
  }

  /** Amount on the destination chain; None where the source divides by a wrapped-to-zero power and panics. */
  function DstAmount(src: nat, dst: nat, amount: nat): Option<nat> {
    if src > dst then ScaleDown(amount, WrappedPow10(src - dst))
    else if src < dst then Some(ScaleUp(amount, WrappedPow10(dst - src)))
    else Some(amount)
  }

  function ScaleDown(amount: nat, p: nat): Option<nat> {
    if p == 0 then None else Some(amount / p)
  }

  function ScaleUp(amount: nat, p: nat): nat {
    amount * p
  }

  method ScaleAmount(src: nat, dst: nat, amount: nat) returns (r: Option<nat>)
    ensures r == DstAmount(src, dst, amount)
  {
    r := Some(amount);
    if src > dst {
      var p := PowerLoop(src - dst);
      r := ScaleDown(amount, p);
    } else if src < dst {
      var p := PowerLoop(dst - src);
      r := Some(ScaleUp(amount, p));
    }
  }

  lemma {:induction false} Pow10Adds(a: nat, b: nat)
    ensures Pow10(a + b) == Pow10(a) * Pow10(b)
  {
    if a > 0 {
      Pow10Adds(a - 1, b);
      assert Pow10(a + b) == 10 * Pow10(a - 1 + b);
    }
  }

  lemma Pow10At19()
    ensures Pow10(19) == 10_000_000_000_000_000_000
  {
    assert Pow10(4) == 10_000;
    Pow10Adds(4, 4);
    Pow10Adds(8, 8);
    Pow10Adds(16, 3);
  }

  lemma {:induction false} Pow10Grows(a: nat, b: nat)
    requires a <= b
    ensures Pow10(a) <= Pow10(b)
  {
    if a < b {
      Pow10Grows(a, b - 1);
    }
  }

  lemma {:induction false} WrappedExact(n: nat)
    requires n <= 19
    ensures WrappedPow10(n) == Pow10(n)
  {
    if n > 0 {
      WrappedExact(n - 1);
      ExactBelow(n);
      NoWrap(Pow10(n - 1) * 10);
    }
  }

  lemma NoWrap(p: nat)
    requires p < TWO64
    ensures p % TWO64 == p
  {
  }

  lemma ExactBelow(n: nat)
    requires n <= 19
    ensures Pow10(n) < TWO64
  {
    Pow10Grows(n, 19);
    Pow10At19();
  }

  /** The loop yields the power of ten exactly when the gap is at most 19. */
  lemma WrapsExactlyFrom20(n: nat)
    ensures WrappedPow10(n) == Pow10(n) <==> n <= 19
    ensures n >= 20 ==> WrappedPow10(n) < Pow10(n)
  {
    if n <= 19 {
      WrappedExact(n);
    } else {
      Pow10At19();
      Pow10Grows(20, n);
    }
  }

  function Pow2(n: nat): (p: nat)
    ensures p >= 1
  {
    if n == 0 then 1 else 2 * Pow2(n - 1)
  }

  lemma {:induction false} Pow2Adds(a: nat, b: nat)
    ensures Pow2(a + b) == Pow2(a) * Pow2(b)
  {
    if a > 0 {
      Pow2Adds(a - 1, b);
      assert Pow2(a + b) == 2 * Pow2(a - 1 + b);
    }
  }

  lemma Pow2At64()
    ensures Pow2(64) == TWO64
  {
    assert Pow2(4) == 16;
    Pow2Adds(4, 4);
    Pow2Adds(8, 8);
    Pow2Adds(16, 16);
    Pow2Adds(32, 32);
  }

  /** One more factor of two and an odd rest, until the 64 bits are used up. */
  lemma {:induction false} TwosIn(n: nat) returns (odd: int)
    requires n <= 63
    ensures WrappedPow10(n) == Pow2(n) * odd && odd % 2 == 1
  {
    if n == 0 {
      odd := 1;
    } else {
      var k := TwosIn(n - 1);
      odd := NextOdd(n, k);
    }
  }

  lemma FactorOut(half: int, b: int, k: int, m: int)
    ensures half * k * 10 - m * (2 * half * b) == 2 * half * (5 * k - m * b)
  {
    assert half * k * 10 == 2 * half * (5 * k);
    assert m * (2 * half * b) == 2 * half * (m * b);
  }

  lemma NextFactor(n: nat, k: int) returns (m: int)
    requires 1 <= n <= 64 && WrappedPow10(n - 1) == Pow2(n - 1) * k
    ensures WrappedPow10(n) == Pow2(n) * (5 * k - m * Pow2(64 - n))
  {
    var x := WrappedPow10(n - 1) * 10;
    m := x / TWO64;
    var r := x % TWO64;
    assert x - m * TWO64 == r;
    Pow2At64();
    Pow2Adds(n, 64 - n);
    FactorOut(Pow2(n - 1), Pow2(64 - n), k, m);
  }

  lemma Twice(m: int, h: int)
    ensures m * (2 * h) == 2 * (m * h)
  {
  }

  lemma OddMinusEven(k: int, j: int)
    requires k % 2 == 1
    ensures (5 * k - 2 * j) % 2 == 1
  {
  }

  lemma NextOdd(n: nat, k: int) returns (odd: int)
    requires 1 <= n <= 63 && WrappedPow10(n - 1) == Pow2(n - 1) * k && k % 2 == 1
    ensures WrappedPow10(n) == Pow2(n) * odd && odd % 2 == 1
  {
    var m := NextFactor(n, k);
    odd := 5 * k - m * Pow2(64 - n);
    Twice(m, Pow2(63 - n));
    OddMinusEven(k, m * Pow2(63 - n));
  }

  lemma ProductNonZero(a: int, b: int)
    requires a != 0 && b != 0
    ensures a * b != 0
  {
  }

  lemma MultipleBelow(d: nat, x: int)
    requires 0 <= d * x < d
    ensures x == 0 && d * x == 0
  {
    if x >= 1 {
      MulMono(1, x, d);
    } else if x <= -1 {
      MulMono(x, -1, d);
    }
  }

  lemma NonZeroTo63(n: nat)
    requires n <= 63
    ensures WrappedPow10(n) != 0
  {
    var odd := TwosIn(n);
    ProductNonZero(Pow2(n), odd);
  }

  lemma ZeroAt(n: nat)
    requires n == 64
    ensures WrappedPow10(n) == 0
  {
    var k := TwosIn(n - 1);
    var m := NextFactor(n, k);
    Pow2At64();
    MultipleBelow(Pow2(n), 5 * k - m * Pow2(64 - n));
  }

  /** The wrapped power reaches zero, which the down-scaling branch divides by, exactly from gap 64 on. */
  lemma {:induction false} WrapsToZeroExactlyFrom64(n: nat)
    ensures WrappedPow10(n) == 0 <==> n >= 64
  {
    if n <= 63 {
      NonZeroTo63(n);
    } else if n == 64 {
      ZeroAt(n);
    } else {
      WrapsToZeroExactlyFrom64(n - 1);
    }
  }

  // ----- what the scaled amount means -----

  lemma FloorBounds(a: nat, p: nat)
    requires p > 0
    ensures a - p < a / p * p <= a
  {
    assert a == p * (a / p) + a % p;
  }

  lemma MulMono(a: int, b: int, k: nat)
    requires a <= b
    ensures a * k <= b * k
  {
  }

  lemma Regroup(b: nat, p: nat, q: nat)
    ensures b * (p * q) == b * p * q
  {
  }

  lemma DownSolvent(a: nat, p: nat, q: nat)
    requires p > 0
    ensures a / p * (p * q) <= a * q
  {
    FloorBounds(a, p);
    Regroup(a / p, p, q);
    MulMono(a / p * p, a, q);
  }

  lemma UpSolvent(a: nat, w: nat, p: nat, q: nat)
    requires w <= p
    ensures a * w * q <= a * (p * q)
  {
    MulMono(w, p, a);
    MulMono(a * w, a * p, q);
    Regroup(a, p, q);
  }

  lemma DownIsSolvent(src: nat, dst: nat, amount: nat)
    requires dst < src <= dst + 19
    ensures DstAmount(src, dst, amount) == Some(amount / Pow10(src - dst))
    ensures amount / Pow10(src - dst) * Pow10(src) <= amount * Pow10(dst)
  {
    WrapsExactlyFrom20(src - dst);
    Pow10Adds(src - dst, dst);
    DownSolvent(amount, Pow10(src - dst), Pow10(dst));
  }

  lemma UpIsSolvent(src: nat, dst: nat, amount: nat)
    requires src < dst
    ensures ScaleUp(amount, WrappedPow10(dst - src)) * Pow10(src) <= amount * Pow10(dst)
  {
    WrapsExactlyFrom20(dst - src);
    Pow10Adds(dst - src, src);
    UpSolvent(amount, WrappedPow10(dst - src), Pow10(dst - src), Pow10(src));
  }

  ghost predicate SolventAt(src: nat, dst: nat, a: nat)
    requires DstAmount(src, dst, a).Some?
  {
    DstAmount(src, dst, a).value * Pow10(src) <= a * Pow10(dst)
  }

  /** The relay never sends more value than it received, for every amount, while the gap does not wrap. */
  lemma ScalingSolvent(src: nat, dst: nat, amount: nat)
    requires src <= dst + 19
    ensures DstAmount(src, dst, amount).Some? && SolventAt(src, dst, amount)
  {
    if src > dst {
      DownIsSolvent(src, dst, amount);
    } else if src < dst {
      UpIsSolvent(src, dst, amount);
    }
  }

  ghost predicate SolventForAll(src: nat, dst: nat) {
    forall a: nat :: DstAmount(src, dst, a).Some? ==> SolventAt(src, dst, a)
  }

  /** From gap 20 to 63 the wrapped power is too small: the amount equal to it becomes a unit it cannot pay. */
  lemma WrappedGapInsolvent(src: nat, dst: nat)
    requires 20 <= src - dst <= 63
    ensures DstAmount(src, dst, WrappedPow10(src - dst)) == Some(1)
    ensures !SolventAt(src, dst, WrappedPow10(src - dst))
  {
    var p := WrappedPow10(src - dst);
    WrapsToZeroExactlyFrom64(src - dst);
    WrapsExactlyFrom20(src - dst);
    Pow10Adds(src - dst, dst);
    SelfQuotient(p);
    MulStrict(p, Pow10(src - dst), Pow10(dst));
  }

  lemma SelfQuotient(p: nat)
    requires p > 0
    ensures p / p == 1
  {
  }

  lemma MulStrict(a: int, b: int, k: nat)
    requires a < b && k > 0
    ensures a * k < b * k
  {
  }

  /** Exactly when no amount that the handler scales is worth more on the destination chain. */
  lemma SolventExactly(src: nat, dst: nat)
    ensures SolventForAll(src, dst) <==> src <= dst + 19 || src >= dst + 64
  {
    if src <= dst + 19 {
      forall a: nat | DstAmount(src, dst, a).Some?
        ensures SolventAt(src, dst, a)
      {
        ScalingSolvent(src, dst, a);
      }
    } else if src >= dst + 64 {
      WrapsToZeroExactlyFrom64(src - dst);
    } else {
      WrappedGapInsolvent(src, dst);
    }
  }

  /** Scaling up and back down is the identity. */
  lemma UpThenDown(low: nat, high: nat, amount: nat)
    requires low <= high <= low + 19
    ensures DstAmount(low, high, amount).Some?
    ensures DstAmount(high, low, DstAmount(low, high, amount).value) == Some(amount)
  {
    if low < high {
      var p := WrappedPow10(high - low);
      WrapsExactlyFrom20(high - low);
      ExactQuotient(amount, p);
    }
  }

  lemma ExactQuotient(a: nat, p: nat)
    requires p > 0
    ensures a * p / p == a
  {
    FloorBounds(a * p, p);
    var q := a * p / p;
    MultipleBelow(p, a - q);
  }

  /** Scaling down and back up loses strictly less than one destination unit. */
  lemma DownThenUp(high: nat, low: nat, amount: nat)
    requires low <= high <= low + 19
    ensures DstAmount(high, low, amount).Some?
    ensures var back := DstAmount(low, high, DstAmount(high, low, amount).value);
            back.Some? && amount - Pow10(high - low) < back.value <= amount
  {
    if low < high {
      WrapsExactlyFrom20(high - low);
      FloorBounds(amount, Pow10(high - low));
    }
  }

  lemma ScalingMonotone(src: nat, dst: nat, a: nat, b: nat)
    requires a <= b
    requires DstAmount(src, dst, a).Some?
    ensures DstAmount(src, dst, b).Some?
    ensures DstAmount(src, dst, a).value <= DstAmount(src, dst, b).value
  {
    if src > dst {
      QuotientMono(a, b, WrappedPow10(src - dst));
    } else if src < dst {
      MulMono(a, b, WrappedPow10(dst - src));
    }
  }

  lemma QuotientMono(a: nat, b: nat, p: nat)
    requires a <= b && p > 0
    ensures a / p <= b / p
  {
    FloorBounds(a, p);
    FloorBounds(b, p);
    var x, y := a / p, b / p;
    if x >= y + 1 {
      MulMono(y + 1, x, p);
    }
  }
}
