/** The per-lane arithmetic of the two 7-tap Wiener kernels
    (`highbd_wiener_convolve7_8_2d_h` and `highbd_wiener_convolve7_8_2d_v`),
    their 8-lane vector form, and what they compute in exact arithmetic. */
module WienerKernels {
  import opened WienerArith

  /** The bias the stored centre tap lacks (`vcreate_s16(128ULL << 48)`). */
  const CenterBias: int := 128

  /** The four filter lanes a pass multiplies by: stored taps 0..2 and the
      centre tap with its bias restored (`x_filter_s16`, `y_filter_s16`). */
  datatype Taps = Taps(t0: I16, t1: I16, t2: I16, t3: I16)

  /** The vector arguments every kernel call of one pass shares: the filter
      lanes, the constant the accumulator starts from (`round_vec`), the
      right-shift amount (`shift` holds its negation) and the upper clamp
      (`im_max_val` or `res_max_val`). */
  datatype PassParams = PassParams(taps: Taps, roundVec: int, round: nat, maxVal: U16)

  /** The true 7-tap kernel the four lanes stand for. */
  function MirrorKernel(f: Taps): (k: seq<int>)
    ensures |k| == 7
    ensures forall i | 0 <= i < 7 :: k[i] == k[6 - i]
  {
    [f.t0, f.t1, f.t2, f.t3, f.t2, f.t1, f.t0]
  }

  /** `vld1_s16` of the stored taps, then 128 added to lane 3 only, in
      16-bit lane arithmetic. */
  function FilterLanes(stored: seq<I16>): (f: Taps)
    requires |stored| >= 4
    ensures stored[3] + CenterBias < 0x8000 ==>
      MirrorKernel(f) == [stored[0], stored[1], stored[2], stored[3] + CenterBias, stored[2], stored[1], stored[0]]
  {
    Taps(stored[0], stored[1], stored[2], Wrap16(stored[3] + CenterBias))
  }

  /** The full dot product of a kernel with a window. */
  function Dot(k: seq<int>, s: seq<int>): int
    requires |k| == |s|
    decreases |k|
  {
    if |k| == 0 then 0 else k[0] * s[0] + Dot(k[1..], s[1..])
  }

  /** The folded form both kernels evaluate: mirrored samples are added
      before they are multiplied (lines 25-39 and 83-101). */
  function Folded(f: Taps, s: seq<int>): int
    requires |s| == 7
  {
    f.t0 * (s[0] + s[6]) + f.t1 * (s[1] + s[5]) + f.t2 * (s[2] + s[4]) + f.t3 * s[3]
  }

  /** Folding by symmetry changes nothing: the four products equal the
      seven-tap dot product with the mirrored kernel. */
  lemma {:induction false} FoldedIsMirrorDot(f: Taps, s: seq<int>)
    requires |s| == 7
    ensures Folded(f, s) == Dot(MirrorKernel(f), s)
  {
    var k := MirrorKernel(f);
    assert Dot(k[6..], s[6..]) == k[6] * s[6] + Dot(k[7..], s[7..]);
    assert Dot(k[5..], s[5..]) == k[5] * s[5] + Dot(k[6..], s[6..]);
    assert Dot(k[4..], s[4..]) == k[4] * s[4] + Dot(k[5..], s[5..]);
    assert Dot(k[3..], s[3..]) == k[3] * s[3] + Dot(k[4..], s[4..]);
    assert Dot(k[2..], s[2..]) == k[2] * s[2] + Dot(k[3..], s[3..]);
    assert Dot(k[1..], s[1..]) == k[1] * s[1] + Dot(k[2..], s[2..]);
    assert Dot(k, s) == k[0] * s[0] + Dot(k[1..], s[1..]);
  }

  /** The common tail of both kernels (lines 41-45 and 103-107): the rounding
      shift, `vqmovun_s32` and `vminq_u16` together clamp the shifted
      accumulator into `[0, maxVal]`. */
  function Narrow(acc: int, round: nat, maxVal: U16): (r: U16)
    ensures r <= maxVal
    ensures RoundShift(acc, round) < 0 ==> r == 0
    ensures RoundShift(acc, round) > maxVal ==> r == maxVal
    ensures 0 <= RoundShift(acc, round) <= maxVal ==> r == RoundShift(acc, round)
  {
    Min(SaturateU16(RoundShift(acc, round)), maxVal)
  }

  /** One lane of `highbd_wiener_convolve7_8_2d_h`. The samples are read as
      `int16_t` (line 54) and pair-summed in 16-bit lanes; the products
      accumulate in a 32-bit lane. */
  function HLane(win: seq<U16>, p: PassParams): (r: U16)
    requires |win| == 7
    ensures r <= p.maxVal
  {
    var s0, s1, s2, s3 := Wrap16(win[0]), Wrap16(win[1]), Wrap16(win[2]), Wrap16(win[3]);
    var s4, s5, s6 := Wrap16(win[4]), Wrap16(win[5]), Wrap16(win[6]);
    var s06, s15, s24 := Wrap16(s0 + s6), Wrap16(s1 + s5), Wrap16(s2 + s4);
    var f := p.taps;
    Narrow(Wrap32(p.roundVec + f.t0 * s06 + f.t1 * s15 + f.t2 * s24 + f.t3 * s3), p.round, p.maxVal)
  }

  /** One lane of `highbd_wiener_convolve7_8_2d_v`. The intermediates are
      read as `int16_t` (line 116); the pair sums widen to 32 bits
      (`vaddl_s16`) and the products accumulate in a 32-bit lane. */
  function VLane(win: seq<U16>, p: PassParams): (r: U16)
    requires |win| == 7
    ensures r <= p.maxVal
  {
    var s := seq(7, k requires 0 <= k < 7 => Wrap16(win[k]));
    Narrow(Wrap32(p.roundVec + Folded(p.taps, s)), p.round, p.maxVal)
  }

  /** A bound on the filter lanes under which no lane overflows. */
  const TapLimit: int := 1024

  predicate TapsBounded(f: Taps)
  {
    -TapLimit <= f.t0 <= TapLimit && -TapLimit <= f.t1 <= TapLimit &&
    -TapLimit <= f.t2 <= TapLimit && -TapLimit <= f.t3 <= TapLimit
  }

  lemma MulBound(a: int, b: int, bound: int, m: int)
    requires 0 <= bound && -bound <= a <= bound && 0 <= b <= m
    ensures -(bound * m) <= a * b <= bound * m
  {
    if a >= 0 {
      assert a * b <= bound * b <= bound * m;
    } else {
      assert (-a) * b <= bound * b <= bound * m;
    }
  }

  /** A dot product of `n` terms, each within `[-pb, pb]`, is within `[-n pb, n pb]`. */
  lemma {:induction false} DotBound(k: seq<int>, s: seq<int>, pb: int)
    requires |k| == |s| && 0 <= pb
    requires forall i | 0 <= i < |k| :: -pb <= k[i] * s[i] <= pb
    ensures -(|k| * pb) <= Dot(k, s) <= |k| * pb
  {
    if |k| > 0 {
      assert forall i | 0 <= i < |k| - 1 :: k[1..][i] * s[1..][i] == k[i + 1] * s[i + 1];
      DotBound(k[1..], s[1..], pb);
      assert |k| * pb == pb + (|k| - 1) * pb;
    }
  }

  lemma MirrorDotBound(f: Taps, s: seq<int>, m: int)
    requires |s| == 7 && TapsBounded(f) && 0 <= m <= 0x8000
    requires forall i | 0 <= i < 7 :: 0 <= s[i] <= m
    ensures -0x1000_0000 < Dot(MirrorKernel(f), s) < 0x1000_0000
  {
    var k := MirrorKernel(f);
    forall i | 0 <= i < 7
      ensures -0x200_0000 <= k[i] * s[i] <= 0x200_0000
    {
      MulBound(k[i], s[i], TapLimit, 0x8000);
    }
    DotBound(k, s, 0x200_0000);
  }

  /** Without overflow the horizontal lane is the true 7-tap filter: for
      samples below 2^14 (so that no 16-bit pair sum wraps), bounded taps and
      a bounded starting constant, it is the clamped rounding shift of the
      exact dot product with the mirrored kernel. */
  lemma HLaneExact(win: seq<U16>, p: PassParams)
    requires |win| == 7 && forall i | 0 <= i < 7 :: win[i] < 0x4000
    requires TapsBounded(p.taps) && -0x4000_0000 <= p.roundVec <= 0x4000_0000
    ensures HLane(win, p) == Narrow(p.roundVec + Dot(MirrorKernel(p.taps), win), p.round, p.maxVal)
  {
    var s: seq<int> := win;
    FoldedIsMirrorDot(p.taps, s);
    MirrorDotBound(p.taps, s, 0x4000);
  }

  /** The same for the vertical lane, for intermediates below 2^15 (so that
      reading them as `int16_t` changes nothing). */
  lemma VLaneExact(win: seq<U16>, p: PassParams)
    requires |win| == 7 && forall i | 0 <= i < 7 :: win[i] < 0x8000
    requires TapsBounded(p.taps) && -0x4000_0000 <= p.roundVec <= 0x4000_0000
    ensures VLane(win, p) == Narrow(p.roundVec + Dot(MirrorKernel(p.taps), win), p.round, p.maxVal)
  {
    var s := seq(7, k requires 0 <= k < 7 => Wrap16(win[k]));
    assert s == win;
    FoldedIsMirrorDot(p.taps, s);
    MirrorDotBound(p.taps, s, 0x8000);
  }

  // ---------------------------------------------------------------------
  // Eight-lane vectors

  /** The address of the `k`-th of several loads `stride` apart. */
  function At(q: int, k: int, stride: int): int
  {
    q + k * stride
  }

  /** `n` loads of eight values, `stride` apart from `q`, stay inside `len`. */
  predicate LoadsFit(len: int, q: int, stride: int, n: nat)
  {
    forall k | 0 <= k < n :: 0 <= At(q, k, stride) && At(q, k, stride) + 8 <= len
  }

  /** `load_s16_8x7` and `load_s16_8x10`: `n` vectors of eight consecutive
      values, the `k`-th starting at `q + k * stride`. */
  function LoadRows(a: seq<U16>, q: int, stride: int, n: nat): (s: seq<seq<U16>>)
    requires LoadsFit(|a|, q, stride, n)
    ensures |s| == n && forall k | 0 <= k < n :: |s[k]| == 8
    ensures forall k, l | 0 <= k < n && 0 <= l < 8 :: s[k][l] == a[At(q, k, stride) + l]
  {
    seq(n, k requires 0 <= k < n => a[At(q, k, stride)..At(q, k, stride) + 8])
  }

  /** Lane `l` of seven vectors: the window that lane filters. */
  function LaneOf(s: seq<seq<U16>>, l: int): (win: seq<U16>)
    requires |s| == 7 && 0 <= l < 8 && forall k | 0 <= k < 7 :: |s[k]| == 8
    ensures |win| == 7
  {
    seq(7, k requires 0 <= k < 7 => s[k][l])
  }

  predicate IsVectors7(s: seq<seq<U16>>)
  {
    |s| == 7 && forall k | 0 <= k < 7 :: |s[k]| == 8
  }

  /** `highbd_wiener_convolve7_8_2d_h` on eight lanes. */
  function ConvolveH8(s: seq<seq<U16>>, p: PassParams): (d: seq<U16>)
    requires IsVectors7(s)
    ensures |d| == 8 && forall l | 0 <= l < 8 :: d[l] <= p.maxVal
  {
    seq(8, l requires 0 <= l < 8 => HLane(LaneOf(s, l), p))
  }

  /** `highbd_wiener_convolve7_8_2d_v` on eight lanes. */
  function ConvolveV8(s: seq<seq<U16>>, p: PassParams): (d: seq<U16>)
    requires IsVectors7(s)
    ensures |d| == 8 && forall l | 0 <= l < 8 :: d[l] <= p.maxVal
  {
    seq(8, l requires 0 <= l < 8 => VLane(LaneOf(s, l), p))
  }

  /** The horizontal loads of line 60 are seven vectors one sample apart, so
      lane `l` filters the seven consecutive samples starting at `q + l`. */
  lemma ConvolveH8Lanes(a: seq<U16>, q: int, p: PassParams)
    requires 0 <= q && q + 14 <= |a|
    ensures LoadsFit(|a|, q, 1, 7)
    ensures IsVectors7(LoadRows(a, q, 1, 7))
    ensures forall l | 0 <= l < 8 :: ConvolveH8(LoadRows(a, q, 1, 7), p)[l] == HLane(a[q + l..q + l + 7], p)
  {
    var s := LoadRows(a, q, 1, 7);
    forall l | 0 <= l < 8
      ensures ConvolveH8(s, p)[l] == HLane(a[q + l..q + l + 7], p)
    {
      assert LaneOf(s, l) == a[q + l..q + l + 7];
    }
  }

  predicate ColumnFits(len: int, q: int, stride: int)
  {
    forall k | 0 <= k < 7 :: 0 <= At(q, k, stride) < len
  }

  /** The column of seven values `stride` apart that one output lane of the
      vertical kernel filters. */
  function Column(a: seq<U16>, q: int, stride: int): (win: seq<U16>)
    requires ColumnFits(|a|, q, stride)
    ensures |win| == 7
  {
    seq(7, k requires 0 <= k < 7 => a[At(q, k, stride)])
  }

  lemma ColumnInsideLoads(len: int, q: int, stride: int, l: int)
    requires LoadsFit(len, q, stride, 7) && 0 <= l < 8
    ensures ColumnFits(len, q + l, stride)
  {
    var q' := q + l;
    forall k | 0 <= k < 7
      ensures 0 <= At(q', k, stride) < len
    {
      assert At(q', k, stride) == At(q, k, stride) + l;
    }
  }

  /** The vertical loads are rows `stride` apart, so lane `l` filters the
      column starting at `q + l`. */
  lemma ConvolveV8Lane(a: seq<U16>, q: int, stride: int, p: PassParams, l: int)
    requires LoadsFit(|a|, q, stride, 7) && 0 <= l < 8
    ensures IsVectors7(LoadRows(a, q, stride, 7)) && ColumnFits(|a|, q + l, stride)
    ensures ConvolveV8(LoadRows(a, q, stride, 7), p)[l] == VLane(Column(a, q + l, stride), p)
  {
    var s := LoadRows(a, q, stride, 7);
    ColumnInsideLoads(|a|, q, stride, l);
    assert LaneOf(s, l) == Column(a, q + l, stride);
  }

  /** Lines 120-139: the four results of a batch, computed from the ten rows
      `s0..s9`, are each the result the single-row tail would compute from
      the seven rows starting at its own row. */
  lemma {:induction false} BatchRowsAreTailRows(a: seq<U16>, q: int, stride: int, j: int)
    requires 0 <= j <= 3 && LoadsFit(|a|, q, stride, 10)
    ensures LoadsFit(|a|, q + j * stride, stride, 7)
    ensures LoadRows(a, q, stride, 10)[j..j + 7] == LoadRows(a, q + j * stride, stride, 7)
  {
    var q' := q + j * stride;
    forall k | 0 <= k < 7
      ensures At(q', k, stride) == At(q, j + k, stride)
    {
      assert (j + k) * stride == j * stride + k * stride;
    }
  }
}
