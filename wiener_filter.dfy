/** The entry point `av1_highbd_wiener_convolve_add_src_neon`: it builds the
    parameters of the two passes, filters `h + 6` source rows horizontally
    into an intermediate block of stride `MAX_SB_SIZE`, and filters that block
    vertically into the destination. */
module WienerFilter {
  import opened WienerArith
  import opened WienerKernels
  import opened WienerPasses

  const FilterBits: nat := 7
  const WienerWin: nat := 7
  const WienerHalfWin: nat := 3
  const MaxSbSize: nat := 128

  /** The rounding amounts of `WienerConvolveParams`. */
  datatype ConvolveParams = ConvolveParams(round0: nat, round1: nat)

  /** The conversion of an `int` to a `uint16_t` lane (`vdupq_n_u16`). */
  function ToU16(x: int): (r: U16)
    ensures (x - r) % 0x1_0000 == 0
    ensures 0 <= x < 0x1_0000 ==> r == x
  {
    x % 0x1_0000
  }

  /** The assertions at the top of the entry point: the width is a multiple
      of eight, the block is at most a superblock, the steps are unit steps
      and the eighth stored tap of each filter is zero. */
  predicate EntryAsserts(w: int, h: int, xStep: int, yStep: int, xFilter: seq<I16>, yFilter: seq<I16>): (ok: bool)
    ensures ok ==> w == 8 * (w / 8) && w / 8 <= MaxSbSize / 8
  {
    w % 8 == 0 && w <= MaxSbSize && h <= MaxSbSize &&
    xStep == 16 && yStep == 16 &&
    |xFilter| >= 8 && |yFilter| >= 8 && xFilter[7] == 0 && yFilter[7] == 0
  }

  /** The shifts of the entry point are defined in C when
      `1 << (bd + FILTER_BITS - 1)` and `1 << (bd + round_1 - 1)` stay below
      bit 31. The model also excludes two cases where the C is defined:
      `bd == 0`, and a `-round_0` that does not fit the signed byte
      `vqrshlq_s32` reads its shift from. */
  predicate ShiftsDefined(bd: int, conv: ConvolveParams)
  {
    1 <= bd && bd + FilterBits - 1 <= 30 && bd + conv.round1 - 1 <= 30 && conv.round0 <= 128
  }

  /** The parameters of the horizontal pass: the accumulator starts at
      `2^(bd + 6)`, the shift is `round_0` and values are clamped to
      `clampLimit - 1`, where `clampLimit` is `WIENER_CLAMP_LIMIT(round_0, bd)`. */
  function HorizParams(xFilter: seq<I16>, bd: nat, conv: ConvolveParams, clampLimit: int): (p: PassParams)
    requires |xFilter| >= 4
    ensures p.taps == FilterLanes(xFilter) && p.round == conv.round0
    ensures bd + FilterBits - 1 <= 30 ==> p.roundVec == Pow2(bd + FilterBits - 1) <= 0x4000_0000
    ensures 1 <= clampLimit <= 0x1_0000 ==> p.maxVal == clampLimit - 1
  {
    var e: nat := bd + FilterBits - 1;
    assert e <= 30 ==> Pow2(e) <= 0x4000_0000 by {
      if e <= 30 {
        Pow2Monotone(e, 30);
        Pow2Values();
      }
    }
    PassParams(FilterLanes(xFilter), Pow2(e), conv.round0, ToU16(clampLimit - 1))
  }

  /** The parameters of the vertical pass: the accumulator starts at
      `-2^(bd + round_1 - 1)`, the shift is `round_1` and values are clamped to
      `2^bd - 1`. */
  function VertParams(yFilter: seq<I16>, bd: nat, conv: ConvolveParams): (p: PassParams)
    requires |yFilter| >= 4 && bd + conv.round1 >= 1
    ensures p.taps == FilterLanes(yFilter) && p.round == conv.round1
    ensures bd + conv.round1 - 1 <= 30 ==>
              p.roundVec == -(Pow2(bd + conv.round1 - 1) as int) && -0x4000_0000 <= p.roundVec < 0
    ensures bd <= 16 ==> p.maxVal == Pow2(bd) - 1
  {
    var e: nat := bd + conv.round1 - 1;
    assert e <= 30 ==> Pow2(e) <= 0x4000_0000 by {
      if e <= 30 {
        Pow2Monotone(e, 30);
        Pow2Values();
      }
    }
    assert bd <= 16 ==> Pow2(bd) <= 0x1_0000 by {
      if bd <= 16 {
        Pow2AtMost16(bd);
      }
    }
    PassParams(FilterLanes(yFilter), -(Pow2(e) as int), conv.round1, ToU16(Pow2(bd) - 1))
  }

  /** The source view moved up three rows and left three columns, where the
      horizontal pass starts reading. */
  function BorderPlane(view: Plane): (b: Plane)
    ensures b.stride == view.stride
  {
    Plane(view.pos - WienerHalfWin - WienerHalfWin * view.stride, view.stride)
  }

  /** Cell `(r + 3, c + 3)` of the moved view is source cell `(r, c)`. */
  lemma BorderCell(view: Plane, r: int, c: int)
    ensures CellAt(BorderPlane(view), r + WienerHalfWin, c + WienerHalfWin) == CellAt(view, r, c)
  {
    assert (r + WienerHalfWin) * view.stride == r * view.stride + WienerHalfWin * view.stride;
  }

  /** The source rows `r .. r + 6` of the moved view are `c + 7` values wide
      inside an array of length `len`. */
  predicate WindowFits(len: int, view: Plane, r: int, c: int)
  {
    0 <= c && forall r' | r <= r' < r + 7 :: 0 <= RowStart(BorderPlane(view), r') && RowStart(BorderPlane(view), r') + c + 7 <= len
  }

  /** Intermediate value `(r, c)`: the horizontal kernel applied to source row
      `r - 3`, columns `c - 3 .. c + 3`. */
  function IntermediateAt(src: seq<U16>, view: Plane, r: int, c: int, hp: PassParams): (v: U16)
    requires 0 <= c && 0 <= RowStart(BorderPlane(view), r) && RowStart(BorderPlane(view), r) + c + 7 <= |src|
    ensures v <= hp.maxVal
  {
    HCell(src, BorderPlane(view), r, c, hp)
  }

  /** The intermediate values `(r, c) .. (r + 6, c)`. */
  function IntermediateColumn(src: seq<U16>, view: Plane, r: int, c: int, hp: PassParams): (col: seq<U16>)
    requires WindowFits(|src|, view, r, c)
    ensures |col| == 7
  {
    seq<U16>(7, k requires 0 <= k < 7 => IntermediateAt(src, view, r + k, c, hp))
  }

  /** Output value `(r, c)`: the vertical kernel applied to the intermediate
      values `(r, c) .. (r + 6, c)`, that is, the 7 x 7 neighbourhood of source
      pixel `(r, c)` filtered first along rows and then along columns. */
  function WienerAt(src: seq<U16>, view: Plane, r: int, c: int, hp: PassParams, vp: PassParams): (v: U16)
    requires WindowFits(|src|, view, r, c)
    ensures v <= vp.maxVal
  {
    VLane(IntermediateColumn(src, view, r, c, hp), vp)
  }

  /** The intermediate block: `MAX_SB_SIZE + WIENER_WIN - 1` rows of
      `MAX_SB_SIZE` values. */
  const ImPlane: Plane := Plane(0, MaxSbSize)
  const ImSize: nat := (MaxSbSize + WienerWin - 1) * MaxSbSize

  lemma ImRowsFit(rows: int, w: int)
    requires 0 <= rows <= MaxSbSize + WienerWin - 1 && 0 <= w <= MaxSbSize
    ensures RowsFit(ImSize, ImPlane, rows, w)
  {
  }

  /** The rows the vertical pass reads are rows the horizontal pass wrote:
      whatever the scratch block `orig` held before, the column read for
      output `(r, c)` is the intermediate column. */
  lemma ImColumn(im: seq<U16>, orig: seq<U16>, src: seq<U16>, view: Plane, w: int, h: int, hp: PassParams, r: int, c: int)
    requires |im| == ImSize && |orig| == ImSize && 0 <= w <= MaxSbSize && 0 <= r < h <= MaxSbSize
    requires RowsFit(|src|, BorderPlane(view), h + 6, w + 6)
    requires forall i | 0 <= i < |im| ::
      im[i] == if InBlock(ImPlane, w, h + 6, i) then HCell(src, BorderPlane(view), Row(ImPlane, i), Col(ImPlane, i), hp) else orig[i]
    requires 0 <= c < w
    ensures ColumnFits(|im|, CellAt(ImPlane, r, c), MaxSbSize) && WindowFits(|src|, view, r, c)
    ensures Column(im, CellAt(ImPlane, r, c), MaxSbSize) == IntermediateColumn(src, view, r, c, hp)
  {
    hide HLane;
    var q := CellAt(ImPlane, r, c);
    forall k | 0 <= k < 7
      ensures At(q, k, MaxSbSize) == CellAt(ImPlane, r + k, c)
      ensures 0 <= CellAt(ImPlane, r + k, c) < |im|
      ensures im[CellAt(ImPlane, r + k, c)] == IntermediateAt(src, view, r + k, c, hp)
    {
      CellBelow(ImPlane, r, c, k);
      CellIndex(ImPlane, r + k, c);
      assert RowStart(BorderPlane(view), r + k) + w + 6 <= |src|;
    }
  }

  /** The assertions at the top of the entry point admit every width
      `w <= 0` that is a multiple of eight (`w % 8 == 0` holds in C for
      `w == 0`, `-8`, `-16`, ...), and from such a width the column loops of
      both passes never reach their exit condition. */
  lemma NonPositiveWidthPassesAsserts(w: int)
    requires w <= 0 && w % 8 == 0
    ensures EntryAsserts(w, 0, 16, 16, [0, 0, 0, 0, 0, 0, 0, 0], [0, 0, 0, 0, 0, 0, 0, 0])
    ensures forall fuel: nat :: DoWhileGroups(w, fuel) == None
  {
    forall fuel: nat
      ensures DoWhileGroups(w, fuel) == None
    {
      NonPositiveWidthNeverStops(w, fuel);
    }
  }

  /** With a positive width, as the entry point requires of its callers, the
      column loops of both passes stop after `w / 8` groups. */
  lemma PositiveWidthStops(w: int, h: int, xStep: int, yStep: int, xFilter: seq<I16>, yFilter: seq<I16>)
    requires EntryAsserts(w, h, xStep, yStep, xFilter, yFilter) && 0 < w
    ensures DoWhileGroups(w, w / 8) == Some(w / 8)
  {
    WidthGroups(w, w / 8);
  }

  /** `av1_highbd_wiener_convolve_add_src_neon` (lines 160-207). Every cell
      `(r, c)` of the `w` x `h` destination block receives the two-pass
      filtered value of the source neighbourhood around `(r, c)`, within
      `[0, 2^bd - 1]`; no other destination value changes. The source is read
      completely before the destination is written, so the two may be the
      same array. */
  method WienerConvolveAddSrc(src: array<U16>, srcView: Plane, dst: array<U16>, dstView: Plane,
                              xFilter: seq<I16>, xStep: int, yFilter: seq<I16>, yStep: int,
                              w: int, h: int, conv: ConvolveParams, bd: nat, clampLimit: int)
    requires EntryAsserts(w, h, xStep, yStep, xFilter, yFilter)
    requires 0 < w && 0 <= h
    requires ShiftsDefined(bd, conv)
    requires -0x2AAA_AAAA <= srcView.stride <= 0x2AAA_AAAA
    requires RowsFit(src.Length, BorderPlane(srcView), h + 6, w + 6)
    requires w <= dstView.stride && 0 <= dstView.pos && RowsFit(dst.Length, dstView, h, w)
    modifies dst
    ensures forall i | 0 <= i < dst.Length ::
      dst[i] == if InBlock(dstView, w, h, i)
                then WienerAt(old(src[..]), srcView, Row(dstView, i), Col(dstView, i),
                              HorizParams(xFilter, bd, conv, clampLimit), VertParams(yFilter, bd, conv))
                else old(dst[i])
  {
    hide HLane, VLane, HCell, ConvolveH8, ConvolveV8, LoadRows, Splice, IntermediateAt, IntermediateColumn, FilterLanes;
    ghost var src0 := src[..];
    var im := new U16[ImSize];
    ghost var scratch := im[..];
    var hp := HorizParams(xFilter, bd, conv, clampLimit);
    var vp := VertParams(yFilter, bd, conv);
    var imH := h + WienerWin - 1;
    var border := BorderPlane(srcView);
    ImRowsFit(imH, w);
    ConvolveAddSrcHoriz(src, border, im, ImPlane, w, imH, hp);
    ghost var im0 := im[..];
    assert src[..] == src0;
    ConvolveAddSrcVert(im, ImPlane, dst, dstView, w, h, vp);
    forall i | 0 <= i < dst.Length && InBlock(dstView, w, h, i)
      ensures VCell(im0, ImPlane, Row(dstView, i), Col(dstView, i), vp)
           == WienerAt(src0, srcView, Row(dstView, i), Col(dstView, i), hp, vp)
    {
      ImColumn(im0, scratch, src0, srcView, w, h, hp, Row(dstView, i), Col(dstView, i));
    }
  }
}
