/** What the filter computes, stated against the entry point's per-pixel
    specification: the ranges of the intermediate and output values; the
    agreement, when nothing overflows, with a reference two-pass filter that is
    the same fixed-point algorithm in unbounded integers (not a real-valued
    filter); the pass-through of a flat block; and the midpoint of a
    horizontal linear ramp kept by a symmetric unity-gain filter. */
module WienerProperties {
  import opened WienerArith
  import opened WienerKernels
  import opened WienerPasses
  import opened WienerFilter

  /** Intermediate values lie in `[0, clampLimit - 1]` (`im_max_val`). */
  lemma IntermediateBelowClampLimit(src: seq<U16>, view: Plane, r: int, c: int,
                                    xFilter: seq<I16>, bd: nat, conv: ConvolveParams, clampLimit: int)
    requires |xFilter| >= 4 && 1 <= clampLimit <= 0x1_0000
    requires 0 <= c && 0 <= RowStart(BorderPlane(view), r) && RowStart(BorderPlane(view), r) + c + 7 <= |src|
    ensures IntermediateAt(src, view, r, c, HorizParams(xFilter, bd, conv, clampLimit)) < clampLimit
  {
  }

  /** Output values lie in `[0, 2^bd - 1]` (`res_max_val`). */
  lemma OutputBelowPow2(src: seq<U16>, view: Plane, r: int, c: int, hp: PassParams,
                        yFilter: seq<I16>, bd: nat, conv: ConvolveParams)
    requires |yFilter| >= 4 && 1 <= bd <= 16
    requires WindowFits(|src|, view, r, c)
    ensures WienerAt(src, view, r, c, hp, VertParams(yFilter, bd, conv)) < Pow2(bd)
  {
    hide Pow2, VLane, IntermediateColumn;
    Pow2AtMost16(bd);
  }

  // ---------------------------------------------------------------------
  // The reference filter: the same fixed-point algorithm in unbounded integers

  /** The seven source samples of row `r - 3`, columns `c - 3 .. c + 3`. */
  function SourceWindow(src: seq<U16>, view: Plane, r: int, c: int): (win: seq<U16>)
    requires 0 <= c && 0 <= RowStart(BorderPlane(view), r) && RowStart(BorderPlane(view), r) + c + 7 <= |src|
    ensures |win| == 7
  {
    src[CellAt(BorderPlane(view), r, c)..CellAt(BorderPlane(view), r, c) + 7]
  }

  /** Every source sample the output `(r, c)` depends on is below `m`. */
  predicate SamplesBelow(src: seq<U16>, view: Plane, r: int, c: int, m: int)
    requires WindowFits(|src|, view, r, c)
  {
    forall r' | r <= r' < r + 7 :: forall j | 0 <= j < 7 :: SourceWindow(src, view, r', c)[j] < m
  }

  /** The reference horizontal pass: the exact dot product with the mirrored
      seven-tap kernel, rounded, shifted and clamped. */
  function RefIntermediate(src: seq<U16>, view: Plane, r: int, c: int, hp: PassParams): U16
    requires 0 <= c && 0 <= RowStart(BorderPlane(view), r) && RowStart(BorderPlane(view), r) + c + 7 <= |src|
  {
    Narrow(hp.roundVec + Dot(MirrorKernel(hp.taps), SourceWindow(src, view, r, c)), hp.round, hp.maxVal)
  }

  function RefColumn(src: seq<U16>, view: Plane, r: int, c: int, hp: PassParams): (col: seq<U16>)
    requires WindowFits(|src|, view, r, c)
    ensures |col| == 7
  {
    seq<U16>(7, k requires 0 <= k < 7 => RefIntermediate(src, view, r + k, c, hp))
  }

  /** The reference vertical pass over the reference intermediates. */
  function RefOutput(src: seq<U16>, view: Plane, r: int, c: int, hp: PassParams, vp: PassParams): U16
    requires WindowFits(|src|, view, r, c)
  {
    Narrow(vp.roundVec + Dot(MirrorKernel(vp.taps), RefColumn(src, view, r, c, hp)), vp.round, vp.maxVal)
  }

  /** For samples of at most 14 bits, taps within the lane bound and a clamp
      limit of at most 2^15, the folded 16- and 32-bit lane arithmetic of both
      kernels loses nothing: the filter computes the reference two-pass filter
      with the kernels `[x0, x1, x2, x3 + 128, x2, x1, x0]` and
      `[y0, y1, y2, y3 + 128, y2, y1, y0]`. */
  lemma WienerAtIsSeparable(src: seq<U16>, view: Plane, r: int, c: int,
                            xFilter: seq<I16>, yFilter: seq<I16>, bd: nat, conv: ConvolveParams, clampLimit: int)
    requires |xFilter| >= 4 && |yFilter| >= 4 && ShiftsDefined(bd, conv) && bd <= 14
    requires TapsBounded(FilterLanes(xFilter)) && TapsBounded(FilterLanes(yFilter))
    requires 1 <= clampLimit <= 0x8000
    requires WindowFits(|src|, view, r, c) && SamplesBelow(src, view, r, c, Pow2(bd))
    ensures WienerAt(src, view, r, c, HorizParams(xFilter, bd, conv, clampLimit), VertParams(yFilter, bd, conv))
         == RefOutput(src, view, r, c, HorizParams(xFilter, bd, conv, clampLimit), VertParams(yFilter, bd, conv))
  {
    hide HLane, VLane, Narrow, Pow2, Dot, MirrorKernel, FilterLanes, Wrap16;
    var hp, vp := HorizParams(xFilter, bd, conv, clampLimit), VertParams(yFilter, bd, conv);
    Pow2Values();
    Pow2Monotone(bd, 14);
    Pow2Monotone(bd + FilterBits - 1, 30);
    Pow2Monotone(bd + conv.round1 - 1, 30);
    forall r' | r <= r' < r + 7
      ensures IntermediateAt(src, view, r', c, hp) == RefIntermediate(src, view, r', c, hp)
    {
      assert forall j | 0 <= j < 7 :: SourceWindow(src, view, r', c)[j] < Pow2(bd);
      HLaneExact(SourceWindow(src, view, r', c), hp);
    }
    assert IntermediateColumn(src, view, r, c, hp) == RefColumn(src, view, r, c, hp);
    VLaneExact(RefColumn(src, view, r, c, hp), vp);
  }

  // ---------------------------------------------------------------------
  // A flat block passes through

  function Flat(v: int): seq<int>
  {
    [v, v, v, v, v, v, v]
  }

  /** The gain of a kernel: the sum of its seven taps. */
  lemma {:induction false} DotFlat(f: Taps, v: int)
    ensures Dot(MirrorKernel(f), Flat(v)) == (2 * (f.t0 + f.t1 + f.t2) + f.t3) * v
  {
    FoldedIsMirrorDot(f, Flat(v));
  }

  /** Stored taps whose sum with the mirrored ones is zero: with the bias on
      the centre tap the kernel's gain is exactly `2^FILTER_BITS`. */
  predicate UnityGain(stored: seq<I16>)
  {
    |stored| >= 4 && 2 * (stored[0] as int + stored[1] as int + stored[2] as int) + stored[3] as int == 0
  }

  /** A unity-gain filter scales a flat window by 128. */
  lemma UnityKernelGain(stored: seq<I16>, v: int)
    requires UnityGain(stored) && TapsBounded(FilterLanes(stored))
    ensures Dot(MirrorKernel(FilterLanes(stored)), Flat(v)) == 128 * v
  {
    DotFlat(FilterLanes(stored), v);
  }

  lemma MulMonotone(a: int, b: int, m: nat)
    requires a <= b
    ensures a * m <= b * m
  {
  }

  /** `(A + v B) P == A P + v (B P)`: the flat accumulator factors. */
  lemma FlatAccumulatorArith(v: int, a: int, b: int, p: int, ap: int, bp: int)
    requires a * p == ap && b * p == bp
    ensures (a + v * b) * p == ap + v * bp
  {
  }

  /** With `2 A == V B` and `v < V`, the flat intermediate `A + v B` is below `4 A`. */
  lemma FlatBoundArith(v: int, a: int, b: int, bigV: int)
    requires 0 <= v < bigV && 1 <= b && 2 * a == bigV * b
    ensures 0 < a + v * b < 4 * a
  {
    MulMonotone(v, bigV - 1, b);
    MulMonotone(0, v, b);
    MulMonotone(1, bigV, b);
  }

  /** An exact multiple `q * 2^n` of a value `q` in `[0, maxVal]` narrows to `q`. */
  lemma NarrowOfMultiple(acc: int, q: int, n: nat, maxVal: U16)
    requires acc == q * Pow2(n) && 0 <= q <= maxVal
    ensures Narrow(acc, n, maxVal) == q
  {
    RoundShiftOfMultiple(q, n);
  }

  /** The intermediate value of a flat window of `v`:
      `2^(bd + 6 - round_0) + v * 2^(7 - round_0)`. */
  function FlatMid(bd: nat, r0: nat, v: int): int
    requires 1 <= bd && r0 <= FilterBits
  {
    Pow2(bd + 6 - r0) + v * Pow2(7 - r0)
  }

  /** The flat intermediate `2^(bd + 6 - round_0) + v * 2^(7 - round_0)` of a
      sample `v < 2^bd` lies below `2^(bd + 8 - round_0)`. */
  lemma FlatIntermediateBound(bd: nat, r0: nat, v: int)
    requires 1 <= bd && r0 <= FilterBits && 0 <= v < Pow2(bd)
    ensures 0 < FlatMid(bd, r0, v) < Pow2(bd + 1 + FilterBits - r0)
  {
    var eA, eB := bd + 6 - r0, 7 - r0;
    assert Pow2(eA + 1) == 2 * Pow2(eA);
    assert Pow2(eA + 2) == 2 * Pow2(eA + 1);
    hide Pow2;
    Pow2Add(bd, eB);
    assert bd + eB == eA + 1;
    FlatBoundArith(v, Pow2(eA), Pow2(eB), Pow2(bd));
  }

  /** With a unity-gain kernel, the horizontal accumulator of a flat window of
      `v` is the flat intermediate times `2^round_0`. */
  lemma FlatHorizAccumulator(xFilter: seq<I16>, bd: nat, r0: nat, v: int)
    requires UnityGain(xFilter) && TapsBounded(FilterLanes(xFilter))
    requires 1 <= bd && r0 <= FilterBits
    ensures Pow2(bd + FilterBits - 1) + Dot(MirrorKernel(FilterLanes(xFilter)), Flat(v))
         == FlatMid(bd, r0, v) * Pow2(r0)
  {
    hide Pow2, Dot, MirrorKernel, FilterLanes, Wrap16;
    var eA, eB := bd + 6 - r0, 7 - r0;
    UnityKernelGain(xFilter, v);
    Pow2Add(eA, r0);
    Pow2Add(eB, r0);
    Pow2Values();
    FlatAccumulatorArith(v, Pow2(eA), Pow2(eB), Pow2(r0), Pow2(eA + r0), Pow2(eB + r0));
  }

  /** The horizontal pass maps a flat window of `v` to the fixed intermediate
      `2^(bd + 6 - round_0) + v * 2^(7 - round_0)`, below the clamp limit
      `2^(bd + 8 - round_0)`. */
  lemma FlatIntermediate(hp: PassParams, xFilter: seq<I16>, bd: nat, conv: ConvolveParams, clampLimit: int, v: int)
    requires UnityGain(xFilter) && TapsBounded(FilterLanes(xFilter))
    requires hp == HorizParams(xFilter, bd, conv, clampLimit)
    requires 1 <= bd && conv.round0 <= FilterBits
    requires Pow2(bd + 1 + FilterBits - conv.round0) <= clampLimit <= 0x8000
    requires 0 <= v < Pow2(bd)
    ensures Narrow(hp.roundVec + Dot(MirrorKernel(hp.taps), Flat(v)), hp.round, hp.maxVal)
         == FlatMid(bd, conv.round0, v)
    ensures FlatMid(bd, conv.round0, v) < 0x8000
  {
    hide Pow2, Dot, MirrorKernel, FilterLanes, Wrap16, RoundShift, Narrow, TapsBounded, UnityGain, FlatMid;
    var r0 := conv.round0;
    var q := FlatMid(bd, r0, v);
    var acc := hp.roundVec + Dot(MirrorKernel(hp.taps), Flat(v));
    assert 0 <= q < clampLimit by {
      FlatIntermediateBound(bd, r0, v);
    }
    assert acc == q * Pow2(r0) by {
      FlatHorizAccumulator(xFilter, bd, r0, v);
    }
    assert hp.maxVal == clampLimit - 1;
    hide HorizParams;
    NarrowOfMultiple(acc, q, r0, hp.maxVal);
  }

  /** `-128 A + 128 (A + v B) == v (128 B)`: the offsets cancel. */
  lemma FlatOutputArith(v: int, a: int, b: int, x: int, y: int)
    requires 128 * a == x && 128 * b == y
    ensures -x + 128 * (a + v * b) == v * y
  {
  }

  /** With a unity-gain kernel and `round_0 + round_1 == 14`, the vertical
      accumulator of a flat column of the intermediate of `v` is `v * 2^round_1`:
      the offset `-2^(bd + round_1 - 1)` cancels the one the horizontal pass
      added. */
  lemma FlatVertAccumulator(yFilter: seq<I16>, bd: nat, r0: nat, r1: nat, v: int)
    requires UnityGain(yFilter) && TapsBounded(FilterLanes(yFilter))
    requires 1 <= bd && r0 <= FilterBits && r0 + r1 == 2 * FilterBits
    ensures -(Pow2(bd + r1 - 1) as int) + Dot(MirrorKernel(FilterLanes(yFilter)), Flat(FlatMid(bd, r0, v)))
         == v * Pow2(r1)
  {
    hide Pow2, Dot, MirrorKernel, FilterLanes, Wrap16, TapsBounded, UnityGain;
    var eA, eB := bd + 6 - r0, 7 - r0;
    var e: nat := bd + r1 - 1;
    UnityKernelGain(yFilter, Pow2(eA) + v * Pow2(eB));
    Pow2Add(eA, 7);
    Pow2Add(eB, 7);
    Pow2Values();
    assert e == eA + 7 && r1 == eB + 7;
    FlatOutputArith(v, Pow2(eA), Pow2(eB), Pow2(e), Pow2(r1));
  }

  /** The vertical pass maps a flat column of that intermediate back to `v`,
      because `round_0 + round_1 == 2 * FILTER_BITS` cancels the offset the
      horizontal pass added. */
  lemma FlatOutput(vp: PassParams, yFilter: seq<I16>, bd: nat, conv: ConvolveParams, v: int)
    requires UnityGain(yFilter) && TapsBounded(FilterLanes(yFilter))
    requires 1 <= bd <= 16 && conv.round0 <= FilterBits && conv.round0 + conv.round1 == 2 * FilterBits
    requires vp == VertParams(yFilter, bd, conv)
    requires 0 <= v < Pow2(bd)
    ensures Narrow(vp.roundVec + Dot(MirrorKernel(vp.taps), Flat(FlatMid(bd, conv.round0, v))),
                   vp.round, vp.maxVal) == v
  {
    hide Pow2, Dot, MirrorKernel, FilterLanes, Wrap16, RoundShift, Narrow, TapsBounded, UnityGain, FlatMid;
    assert vp.maxVal == Pow2(bd) - 1 by {
      Pow2AtMost16(bd);
    }
    FlatVertAccumulator(yFilter, bd, conv.round0, conv.round1, v);
    NarrowOfMultiple(vp.roundVec + Dot(MirrorKernel(vp.taps), Flat(FlatMid(bd, conv.round0, v))),
                     v, conv.round1, vp.maxVal);
  }

  /** Every source sample the output `(r, c)` depends on equals `v`. */
  predicate FlatAround(src: seq<U16>, view: Plane, r: int, c: int, v: int)
    requires WindowFits(|src|, view, r, c)
  {
    forall r' | r <= r' < r + 7 :: SourceWindow(src, view, r', c) == Flat(v)
  }

  lemma FlatSamplesBelow(src: seq<U16>, view: Plane, r: int, c: int, v: int, m: int)
    requires WindowFits(|src|, view, r, c) && FlatAround(src, view, r, c, v) && v < m
    ensures SamplesBelow(src, view, r, c, m)
  {
    forall r' | r <= r' < r + 7
      ensures forall j | 0 <= j < 7 :: SourceWindow(src, view, r', c)[j] < m
    {
      assert SourceWindow(src, view, r', c) == Flat(v);
    }
  }

  /** Over a flat source window the reference intermediate column is flat. */
  lemma FlatColumn(src: seq<U16>, view: Plane, r: int, c: int, xFilter: seq<I16>, bd: nat,
                   conv: ConvolveParams, clampLimit: int, v: U16)
    requires UnityGain(xFilter) && TapsBounded(FilterLanes(xFilter))
    requires 1 <= bd && conv.round0 <= FilterBits
    requires Pow2(bd + 1 + FilterBits - conv.round0) <= clampLimit <= 0x8000
    requires v < Pow2(bd)
    requires WindowFits(|src|, view, r, c)
    requires FlatAround(src, view, r, c, v)
    ensures RefColumn(src, view, r, c, HorizParams(xFilter, bd, conv, clampLimit))
         == Flat(FlatMid(bd, conv.round0, v))
  {
    var hp := HorizParams(xFilter, bd, conv, clampLimit);
    hide HLane, VLane, Narrow, Pow2, Dot, MirrorKernel, FilterLanes, Wrap16, RoundShift,
         TapsBounded, UnityGain, HorizParams, FlatMid;
    FlatIntermediate(hp, xFilter, bd, conv, clampLimit, v);
    FlatColumnOf(src, view, r, c, hp, v, FlatMid(bd, conv.round0, v));
  }

  /** Every row of a flat neighbourhood has the same reference intermediate. */
  lemma FlatColumnOf(src: seq<U16>, view: Plane, r: int, c: int, hp: PassParams, v: int, q: int)
    requires WindowFits(|src|, view, r, c) && FlatAround(src, view, r, c, v)
    requires Narrow(hp.roundVec + Dot(MirrorKernel(hp.taps), Flat(v)), hp.round, hp.maxVal) == q
    ensures RefColumn(src, view, r, c, hp) == Flat(q)
  {
    hide Narrow, Dot, MirrorKernel, BorderPlane;
    forall r' | r <= r' < r + 7
      ensures RefIntermediate(src, view, r', c, hp) == q
    {
      assert SourceWindow(src, view, r', c) == Flat(v);
    }
  }

  /** The reference filter maps a flat source neighbourhood of `v` to `v`. */
  lemma FlatReference(src: seq<U16>, view: Plane, r: int, c: int,
                      xFilter: seq<I16>, yFilter: seq<I16>, bd: nat, conv: ConvolveParams,
                      clampLimit: int, v: U16)
    requires UnityGain(xFilter) && UnityGain(yFilter)
    requires TapsBounded(FilterLanes(xFilter)) && TapsBounded(FilterLanes(yFilter))
    requires 1 <= bd <= 16 && conv.round0 <= FilterBits && conv.round0 + conv.round1 == 2 * FilterBits
    requires Pow2(bd + 1 + FilterBits - conv.round0) <= clampLimit <= 0x8000
    requires v < Pow2(bd)
    requires WindowFits(|src|, view, r, c)
    requires FlatAround(src, view, r, c, v)
    ensures RefOutput(src, view, r, c, HorizParams(xFilter, bd, conv, clampLimit), VertParams(yFilter, bd, conv)) == v
  {
    var hp, vp := HorizParams(xFilter, bd, conv, clampLimit), VertParams(yFilter, bd, conv);
    hide HLane, VLane, Narrow, Pow2, Dot, MirrorKernel, FilterLanes, Wrap16, RoundShift,
         TapsBounded, UnityGain, HorizParams, VertParams, RefColumn, FlatAround, FlatMid;
    FlatColumn(src, view, r, c, xFilter, bd, conv, clampLimit, v);
    FlatOutput(vp, yFilter, bd, conv, v);
  }

  /** A flat block passes through unchanged: when every source sample around
      `(r, c)` is the same `bd`-bit value `v`, both filters have unity gain,
      `round_0 + round_1 == 14` and the clamp limit is at least
      `2^(bd + 1 + FILTER_BITS - round_0)`, the output at `(r, c)` is `v`. */
  lemma FlatBlockPassesThrough(src: seq<U16>, view: Plane, r: int, c: int,
                               xFilter: seq<I16>, yFilter: seq<I16>, bd: nat, conv: ConvolveParams,
                               clampLimit: int, v: U16)
    requires ShiftsDefined(bd, conv)
    requires UnityGain(xFilter) && UnityGain(yFilter)
    requires TapsBounded(FilterLanes(xFilter)) && TapsBounded(FilterLanes(yFilter))
    requires conv.round0 <= FilterBits && conv.round0 + conv.round1 == 2 * FilterBits
    requires bd + 1 + FilterBits - conv.round0 <= 15
    requires Pow2(bd + 1 + FilterBits - conv.round0) <= clampLimit <= 0x8000
    requires v < Pow2(bd)
    requires WindowFits(|src|, view, r, c)
    requires FlatAround(src, view, r, c, v)
    ensures WienerAt(src, view, r, c, HorizParams(xFilter, bd, conv, clampLimit), VertParams(yFilter, bd, conv)) == v
  {
    assert |xFilter| >= 4 && |yFilter| >= 4 && 1 <= bd <= 14;
    assert 1 <= clampLimit;
    hide HLane, VLane, Narrow, Pow2, Dot, MirrorKernel, FilterLanes, Wrap16, RoundShift,
         TapsBounded, UnityGain, WienerAt, IntermediateColumn, IntermediateAt, HCell, RefIntermediate,
         RefOutput, RefColumn, HorizParams, VertParams, FlatAround, SamplesBelow;
    FlatSamplesBelow(src, view, r, c, v, Pow2(bd));
    WienerAtIsSeparable(src, view, r, c, xFilter, yFilter, bd, conv, clampLimit);
    FlatReference(src, view, r, c, xFilter, yFilter, bd, conv, clampLimit, v);
  }

  /** Eight stored taps of zero: the kernel is the bias `128` alone. */
  const ZeroTaps: seq<I16> := [0, 0, 0, 0, 0, 0, 0, 0]

  /** With all stored taps zero, `round_0 = 3`, `round_1 = 11`, `bd = 8` and the
      clamp limit `2^13`, a flat 8-bit neighbourhood of `v` comes out as `v`. */
  lemma ZeroTapsFlatExample(src: seq<U16>, view: Plane, r: int, c: int, v: U16)
    requires v < 256 && WindowFits(|src|, view, r, c) && FlatAround(src, view, r, c, v)
    ensures WienerAt(src, view, r, c, HorizParams(ZeroTaps, 8, ConvolveParams(3, 11), 0x2000),
                     VertParams(ZeroTaps, 8, ConvolveParams(3, 11))) == v
  {
    Pow2Values();
    assert Pow2(8) == 2 * Pow2(7) && Pow2(14) == 2 * Pow2(13);
    FlatBlockPassesThrough(src, view, r, c, ZeroTaps, ZeroTaps, 8, ConvolveParams(3, 11), 0x2000, v);
  }

  // ---------------------------------------------------------------------
  // A horizontal ramp keeps its midpoint

  /** Seven samples rising by `b` per column, centred on `a`. */
  function Ramp(a: int, b: int): seq<int>
  {
    [a - 3 * b, a - 2 * b, a - b, a, a + b, a + 2 * b, a + 3 * b]
  }

  /** A symmetric kernel weighs a ramp as it weighs the flat window of its
      midpoint: the mirrored samples `a - k b` and `a + k b` sum to `2 a`. */
  lemma {:induction false} RampDot(f: Taps, a: int, b: int)
    ensures Dot(MirrorKernel(f), Ramp(a, b)) == Dot(MirrorKernel(f), Flat(a))
  {
    FoldedIsMirrorDot(f, Ramp(a, b));
    FoldedIsMirrorDot(f, Flat(a));
  }

  /** Every source row the output `(r, c)` depends on is the ramp `Ramp(a, b)`
      across its seven columns. */
  predicate RampAround(src: seq<U16>, view: Plane, r: int, c: int, a: int, b: int)
    requires WindowFits(|src|, view, r, c)
  {
    forall r' | r <= r' < r + 7 :: SourceWindow(src, view, r', c) == Ramp(a, b)
  }

  lemma RampSamplesBelow(src: seq<U16>, view: Plane, r: int, c: int, a: int, b: int, m: int)
    requires WindowFits(|src|, view, r, c) && RampAround(src, view, r, c, a, b)
    requires a + 3 * b < m && a - 3 * b < m
    ensures SamplesBelow(src, view, r, c, m)
  {
    forall r' | r <= r' < r + 7
      ensures forall j | 0 <= j < 7 :: SourceWindow(src, view, r', c)[j] < m
    {
      assert SourceWindow(src, view, r', c) == Ramp(a, b);
    }
  }

  /** Every row of a ramp neighbourhood has the reference intermediate of the
      ramp's midpoint. */
  lemma RampColumnOf(src: seq<U16>, view: Plane, r: int, c: int, hp: PassParams, a: int, b: int, q: int)
    requires WindowFits(|src|, view, r, c) && RampAround(src, view, r, c, a, b)
    requires Narrow(hp.roundVec + Dot(MirrorKernel(hp.taps), Flat(a)), hp.round, hp.maxVal) == q
    ensures RefColumn(src, view, r, c, hp) == Flat(q)
  {
    hide Narrow, Dot, MirrorKernel, BorderPlane;
    RampDot(hp.taps, a, b);
    forall r' | r <= r' < r + 7
      ensures RefIntermediate(src, view, r', c, hp) == q
    {
      assert SourceWindow(src, view, r', c) == Ramp(a, b);
    }
  }

  /** Over a ramp the reference intermediate column is flat at the
      intermediate of the midpoint `a`. */
  lemma RampColumn(src: seq<U16>, view: Plane, r: int, c: int, xFilter: seq<I16>, bd: nat,
                   conv: ConvolveParams, clampLimit: int, a: U16, b: int)
    requires UnityGain(xFilter) && TapsBounded(FilterLanes(xFilter))
    requires 1 <= bd && conv.round0 <= FilterBits
    requires Pow2(bd + 1 + FilterBits - conv.round0) <= clampLimit <= 0x8000
    requires a < Pow2(bd)
    requires WindowFits(|src|, view, r, c)
    requires RampAround(src, view, r, c, a, b)
    ensures RefColumn(src, view, r, c, HorizParams(xFilter, bd, conv, clampLimit))
         == Flat(FlatMid(bd, conv.round0, a))
  {
    var hp := HorizParams(xFilter, bd, conv, clampLimit);
    hide HLane, VLane, Narrow, Pow2, Dot, MirrorKernel, FilterLanes, Wrap16, RoundShift,
         TapsBounded, UnityGain, HorizParams, FlatMid;
    FlatIntermediate(hp, xFilter, bd, conv, clampLimit, a);
    RampColumnOf(src, view, r, c, hp, a, b, FlatMid(bd, conv.round0, a));
  }

  /** The reference filter maps a ramp neighbourhood to its midpoint `a`. */
  lemma RampReference(src: seq<U16>, view: Plane, r: int, c: int,
                      xFilter: seq<I16>, yFilter: seq<I16>, bd: nat, conv: ConvolveParams,
                      clampLimit: int, a: U16, b: int)
    requires UnityGain(xFilter) && UnityGain(yFilter)
    requires TapsBounded(FilterLanes(xFilter)) && TapsBounded(FilterLanes(yFilter))
    requires 1 <= bd <= 16 && conv.round0 <= FilterBits && conv.round0 + conv.round1 == 2 * FilterBits
    requires Pow2(bd + 1 + FilterBits - conv.round0) <= clampLimit <= 0x8000
    requires a < Pow2(bd)
    requires WindowFits(|src|, view, r, c)
    requires RampAround(src, view, r, c, a, b)
    ensures RefOutput(src, view, r, c, HorizParams(xFilter, bd, conv, clampLimit), VertParams(yFilter, bd, conv)) == a
  {
    var hp, vp := HorizParams(xFilter, bd, conv, clampLimit), VertParams(yFilter, bd, conv);
    hide HLane, VLane, Narrow, Pow2, Dot, MirrorKernel, FilterLanes, Wrap16, RoundShift,
         TapsBounded, UnityGain, HorizParams, VertParams, RefColumn, RampAround, FlatMid;
    RampColumn(src, view, r, c, xFilter, bd, conv, clampLimit, a, b);
    FlatOutput(vp, yFilter, bd, conv, a);
  }

  /** A symmetric unity-gain filter keeps the midpoint of a linear ramp: when
      every source row around `(r, c)` rises by `b` per column through the
      window, centred on the `bd`-bit value `a`, the output at `(r, c)` is `a`,
      under the same rounding and clamp conditions as a flat block. */
  lemma RampPassesThrough(src: seq<U16>, view: Plane, r: int, c: int,
                          xFilter: seq<I16>, yFilter: seq<I16>, bd: nat, conv: ConvolveParams,
                          clampLimit: int, a: U16, b: int)
    requires ShiftsDefined(bd, conv)
    requires UnityGain(xFilter) && UnityGain(yFilter)
    requires TapsBounded(FilterLanes(xFilter)) && TapsBounded(FilterLanes(yFilter))
    requires conv.round0 <= FilterBits && conv.round0 + conv.round1 == 2 * FilterBits
    requires bd + 1 + FilterBits - conv.round0 <= 15
    requires Pow2(bd + 1 + FilterBits - conv.round0) <= clampLimit <= 0x8000
    requires a + 3 * b < Pow2(bd) && a - 3 * b < Pow2(bd)
    requires WindowFits(|src|, view, r, c)
    requires RampAround(src, view, r, c, a, b)
    ensures WienerAt(src, view, r, c, HorizParams(xFilter, bd, conv, clampLimit), VertParams(yFilter, bd, conv)) == a
  {
    assert |xFilter| >= 4 && |yFilter| >= 4 && 1 <= bd <= 14;
    assert 1 <= clampLimit;
    assert a < Pow2(bd);
    hide HLane, VLane, Narrow, Pow2, Dot, MirrorKernel, FilterLanes, Wrap16, RoundShift,
         TapsBounded, UnityGain, WienerAt, IntermediateColumn, IntermediateAt, HCell, RefIntermediate,
         RefOutput, RefColumn, HorizParams, VertParams, RampAround, SamplesBelow;
    RampSamplesBelow(src, view, r, c, a, b, Pow2(bd));
    WienerAtIsSeparable(src, view, r, c, xFilter, yFilter, bd, conv, clampLimit);
    RampReference(src, view, r, c, xFilter, yFilter, bd, conv, clampLimit, a, b);
  }
}
