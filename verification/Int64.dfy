/** Go's 64-bit integers, written over unbounded ones: wrap-around, truncating division, bitwise and. */
module Int64 {

  const TWO63: int := 0x8000_0000_0000_0000
  const TWO64: int := 0x1_0000_0000_0000_0000

  predicate Is(x: int) { -TWO63 <= x < TWO63 }

  /** The two's complement value of `x` kept to 64 bits. */
  function Wrap(x: int): (w: int)
    ensures Is(w)
    ensures Is(x) ==> w == x
  {
    (x + TWO63) % TWO64 - TWO63
  }

  /** The bit pattern of a signed value, read as unsigned. */
  function Unsigned(x: int): (u: nat)
    requires Is(x)
    ensures u < TWO64
  {
    if x < 0 then x + TWO64 else x
  }

  function Signed(u: nat): (x: int)
    requires u < TWO64
    ensures Is(x)
  {
    if u < TWO63 then u else u - TWO64
  }

  /** Division truncating toward zero. */
  function Div(x: int, y: int): int
    requires y != 0
  {
    if x >= 0 then x / y else -((-x) / y)
  }

  /** Bitwise and of two non-negative numbers, bit by bit from the lowest. */
  function AndBits(a: nat, b: nat): (r: nat)
    ensures r <= a && r <= b
    decreases a
  {
    if a == 0 || b == 0 then 0
    else (if a % 2 == 1 && b % 2 == 1 then 1 else 0) + 2 * AndBits(a / 2, b / 2)
  }

  /** Go's `x & y` on int64. */
  function And(x: int, y: int): (r: int)
    requires Is(x) && Is(y)
    ensures Is(r)
  {
    Signed(AndBits(Unsigned(x), Unsigned(y)))
  }

  function Pow2(k: nat): (p: int)
    ensures p >= 1
  {
    if k == 0 then 1 else 2 * Pow2(k - 1)
  }

  ghost predicate IsPow2(n: int) { exists k: nat :: n == Pow2(k) }

  lemma {:induction false} AndBitsSelf(a: nat)
    ensures AndBits(a, a) == a
    decreases a
  {
    if a > 0 { AndBitsSelf(a / 2); }
  }

  lemma Pow2Double(m: int)
    requires m >= 1
    ensures IsPow2(2 * m) <==> IsPow2(m)
  {
    if IsPow2(m) {
      var k: nat :| m == Pow2(k);
      assert 2 * m == Pow2(k + 1);
    }
    if IsPow2(2 * m) {
      var k: nat :| 2 * m == Pow2(k);
      assert k > 0;
      assert m == Pow2(k - 1);
    }
  }

  /** Clearing the lowest set bit leaves nothing exactly when there was one bit to begin with. */
  lemma {:induction false} LowestBitCleared(n: nat)
    requires n >= 1
    ensures AndBits(n, n - 1) == 0 <==> IsPow2(n)
    decreases n
  {
    if n == 1 {
      assert n == Pow2(0);
    } else if n % 2 == 0 {
      var m := n / 2;
      assert (n - 1) / 2 == m - 1;
      LowestBitCleared(m);
      Pow2Double(m);
    } else {
      var m := n / 2;
      assert (n - 1) / 2 == m;
      AndBitsSelf(m);
      forall k: nat ensures n != Pow2(k) {
        if k > 0 { assert Pow2(k) % 2 == 0; }
      }
    }
  }

  /** Two numbers that both have bit `k` as their top bit keep it in their conjunction. */
  lemma {:induction false} TopBitKept(k: nat, a: nat, b: nat)
    requires Pow2(k) <= a < 2 * Pow2(k) && Pow2(k) <= b < 2 * Pow2(k)
    ensures AndBits(a, b) >= Pow2(k)
  {
    if k > 0 { TopBitKept(k - 1, a / 2, b / 2); }
  }

  lemma Pow2At63()
    ensures Pow2(63) == TWO63
  {
    assert Pow2(8) == 256;
    assert Pow2(16) == 0x1_0000;
    assert Pow2(24) == 0x100_0000;
    assert Pow2(32) == 0x1_0000_0000;
    assert Pow2(40) == 0x100_0000_0000;
    assert Pow2(48) == 0x1_0000_0000_0000;
    assert Pow2(56) == 0x100_0000_0000_0000;
  }

  lemma GuardOnPositive(step: int)
    requires 0 < step && Is(step)
    ensures And(step, Wrap(step - 1)) > 0 <==> !IsPow2(step)
  {
    LowestBitCleared(step);
  }

  lemma GuardOnNegative(step: int)
    requires -TWO63 < step < 0
    ensures And(step, Wrap(step - 1)) < 0
  {
    Pow2At63();
    TopBitKept(63, Unsigned(step), Unsigned(step - 1));
  }

  lemma SingleBit(u: nat, v: nat)
    requires u == TWO63 && v == u - 1
    ensures AndBits(u, v) == 0
  {
    assert IsPow2(u) by { Pow2At63(); }
    LowestBitCleared(u);
  }

  /** The one step whose decrement wraps: its pattern is a single bit. */
  lemma GuardOnSmallest(step: int)
    requires step == -TWO63
    ensures And(step, Wrap(step - 1)) == 0
  {
    SingleBit(Unsigned(step), Unsigned(Wrap(step - 1)));
  }

  /** The guard `step & (step-1) > 0`, for every int64: it fires exactly on the positive steps that
      are not powers of two. Zero and the negative steps, including the one whose decrement wraps,
      all pass. */
  lemma PowerOfTwoGuard(step: int)
    requires Is(step)
    ensures And(step, Wrap(step - 1)) > 0 <==> step > 0 && !IsPow2(step)
  {
    if step > 0 {
      GuardOnPositive(step);
    } else if step == -TWO63 {
      GuardOnSmallest(step);
    } else if step < 0 {
      GuardOnNegative(step);
    }
  }

  lemma {:induction false} Pow2Add(a: nat, b: nat)
    ensures Pow2(a + b) == Pow2(a) * Pow2(b)
    decreases b
  {
    if b == 0 {
    } else {
      Pow2Add(a, b - 1);
      assert Pow2(a + b) == 2 * Pow2(a + (b - 1));
    }
  }

  lemma {:induction false} Pow2Monotone(a: nat, b: nat)
    requires a <= b
    ensures Pow2(a) <= Pow2(b)
    decreases b - a
  {
    if a < b { Pow2Monotone(a + 1, b); }
  }

  /** A power of two that fits in int64 divides 2^63. */
  lemma Pow2Divides(step: int) returns (q: int)
    requires IsPow2(step) && step < TWO63
    ensures q >= 1 && TWO63 == q * step
  {
    var k: nat :| step == Pow2(k);
    Pow2At63();
    if k >= 63 {
      Pow2Monotone(63, k);
      assert false;
    }
    Pow2Add(63 - k, k);
    q := Pow2(63 - k);
  }
}
