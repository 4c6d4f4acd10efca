/** Fixed-width integer arithmetic used by the high-bit-depth Wiener convolution:
    the lane types, two's-complement wrap-around, the rounding right shift of
    `vqrshlq_s32` and the unsigned saturation of `vqmovun_s32`. */
module WienerArith {

  /** A `uint16_t` sample, intermediate value or output value. */
  type U16 = x: int | 0 <= x < 0x1_0000

  /** An `int16_t` lane. */
  type I16 = x: int | -0x8000 <= x < 0x8000

  /** 2^n. */
  function Pow2(n: nat): (r: nat)
    ensures r >= 1
  {
    if n == 0 then 1 else 2 * Pow2(n - 1)
  }

  lemma {:induction false} Pow2Add(a: nat, b: nat)
    ensures Pow2(a + b) == Pow2(a) * Pow2(b)
  {
    if a > 0 {
      Pow2Add(a - 1, b);
      assert Pow2(a + b) == 2 * Pow2(a - 1 + b);
    }
  }

  lemma {:induction false} Pow2Monotone(a: nat, b: nat)
    requires a <= b
    ensures Pow2(a) <= Pow2(b)
  {
    if a < b {
      Pow2Monotone(a, b - 1);
    }
  }

  /** A power of two with an exponent of at most 16 fits 17 bits. */
  lemma Pow2AtMost16(n: nat)
    requires n <= 16
    ensures Pow2(n) <= 0x1_0000
  {
    Pow2Monotone(n, 16);
    Pow2Values();
  }

  /** The powers of two the filter's bounds are stated with. */
  lemma Pow2Values()
    ensures Pow2(2) == 4 && Pow2(7) == 128 && Pow2(14) == 0x4000 && Pow2(15) == 0x8000
    ensures Pow2(16) == 0x1_0000 && Pow2(30) == 0x4000_0000
  {
    Pow2Add(2, 5);
    Pow2Add(7, 7);
    Pow2Add(14, 1);
    Pow2Add(15, 1);
    Pow2Add(15, 15);
  }

  /** The value of `x` in a 16-bit two's-complement lane: what `vaddq_s16`
      produces on overflow and what reading a `uint16_t` through an
      `int16_t *` yields. It is the unique lane value congruent to `x`. */
  function Wrap16(x: int): (r: I16)
    ensures (x - r) % 0x1_0000 == 0
    ensures -0x8000 <= x < 0x8000 ==> r == x
  {
    var m := (x + 0x8000) % 0x1_0000;
    assert x - (m - 0x8000) == 0x1_0000 * ((x + 0x8000) / 0x1_0000);
    m - 0x8000
  }

  /** The value of `x` in a 32-bit two's-complement lane: what the
      non-saturating multiply-accumulates `vmlal_lane_s16` and
      `vmlaq_lane_s32` leave in their accumulator. */
  function Wrap32(x: int): (r: int)
    ensures -0x8000_0000 <= r < 0x8000_0000
    ensures (x - r) % 0x1_0000_0000 == 0
    ensures -0x8000_0000 <= x < 0x8000_0000 ==> r == x
  {
    var m := (x + 0x8000_0000) % 0x1_0000_0000;
    assert x - (m - 0x8000_0000) == 0x1_0000_0000 * ((x + 0x8000_0000) / 0x1_0000_0000);
    m - 0x8000_0000
  }

  /** `vqrshlq_s32` by the negative shift `-n`: a right shift by `n` that rounds
      to nearest, ties upwards. The sum is formed at full precision, so the
      result of a 32-bit lane always fits and never saturates. */
  function RoundShift(x: int, n: nat): (r: int)
    ensures n == 0 ==> r == x
  {
    if n == 0 then x else (x + Pow2(n - 1)) / Pow2(n)
  }

  /** The rounding shift rounds to nearest: `r * 2^n` is within half a step
      of `x`, and exact halves go up. */
  lemma RoundShiftNearest(x: int, n: nat)
    requires n > 0
    ensures RoundShift(x, n) * Pow2(n) <= x + Pow2(n - 1) < RoundShift(x, n) * Pow2(n) + Pow2(n)
  {
    var p, y := Pow2(n), x + Pow2(n - 1);
    assert RoundShift(x, n) == y / p;
    hide RoundShift, Pow2;
    assert y == (y / p) * p + y % p;
  }

  /** The definition of a positive rounding shift, with `2^n == 2 * 2^(n - 1)`. */
  lemma RoundShiftUnfold(x: int, n: nat)
    requires n > 0
    ensures Pow2(n) == 2 * Pow2(n - 1)
    ensures RoundShift(x, n) == (x + Pow2(n - 1)) / Pow2(n)
  {
  }

  /** A rounding shift of an exact multiple of `2^n` divides exactly. */
  lemma RoundShiftOfMultiple(q: int, n: nat)
    ensures RoundShift(q * Pow2(n), n) == q
  {
    if n > 0 {
      RoundShiftOfMultiplePos(q, n, Pow2(n), Pow2(n - 1));
    } else {
      assert Pow2(n) == 1;
      assert q * Pow2(n) == q;
    }
  }

  /** The positive case of `RoundShiftOfMultiple`, with the powers named. */
  lemma RoundShiftOfMultiplePos(q: int, n: nat, p: int, h: int)
    requires n > 0 && p == Pow2(n) && h == Pow2(n - 1)
    ensures RoundShift(q * p, n) == q
  {
    RoundShiftUnfold(q * p, n);
    hide RoundShift, Pow2;
    DivModUnique(q * p + h, p, q, h);
  }

  lemma MulAtLeast(a: int, b: int)
    requires a >= 1 && b > 0
    ensures a * b >= b
  {
  }

  /** Euclidean division by a positive divisor has a unique quotient and remainder. */
  lemma DivModUnique(n: int, s: int, q: int, m: int)
    requires s > 0 && 0 <= m < s && n == q * s + m
    ensures n / s == q && n % s == m
  {
    var q', m' := n / s, n % s;
    assert n == q' * s + m';
    if q' > q {
      MulAtLeast(q' - q, s);
    } else if q' < q {
      MulAtLeast(q - q', s);
    }
  }

  function Dist(a: int, b: int): nat
  {
    if a <= b then b - a else a - b
  }

  /** `vqmovun_s32`: the `uint16_t` value nearest to `x`. */
  function SaturateU16(x: int): (r: U16)
    ensures 0 <= x < 0x1_0000 ==> r == x
    ensures forall y: int | 0 <= y < 0x1_0000 :: Dist(x, r) <= Dist(x, y)
  {
    if x < 0 then 0 else if x > 0xFFFF then 0xFFFF else x
  }

  function Min(a: int, b: int): int
  {
    if a <= b then a else b
  }
}
