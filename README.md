# High-bit-depth Wiener convolution (NEON), modelled in Dafny

This project models libaom's high-bit-depth Wiener "add-src" convolution for
Arm NEON, `av1_highbd_wiener_convolve_add_src_neon`, and the two static pass
drivers and two lane kernels it is built from. The filter is the separable,
mirror-symmetric 7-tap integer filter of AV1 loop restoration. A horizontal
pass filters `h + 6` source rows into an intermediate block of stride
`MAX_SB_SIZE`. A vertical pass then filters that block into the destination.
The centre tap of each stored 8-tap filter gets a bias of 128 first, and each
pass adds its own rounding offset, shifts and clamps.

The model has five modules:

- `WienerArith` (`wiener_arith.dfy`) defines the integer meaning of the NEON
  operations the kernels use: 16- and 32-bit lane wrap-around, the rounding
  right shift of `vqrshlq_s32`, and the unsigned saturation of `vqmovun_s32`.
- `WienerKernels` (`wiener_kernels.dfy`) holds the lane kernels
  `highbd_wiener_convolve7_8_2d_h` and `_v` as pure functions of seven
  samples, and their 8-lane vector forms over `load_s16_8x7` and
  `load_s16_8x10`. It proves that the folded arithmetic is the 7-tap dot
  product, and that the arithmetic is exact when nothing overflows.
- `WienerPasses` (`wiener_passes.dfy`) holds the drivers
  `highbd_convolve_add_src_horiz_hip` and `_vert_hip`. They are methods over
  arrays whose nested loops follow the source: column groups of 8, and in the
  vertical pass batches of 4 rows with a single-row tail. Each is proved to
  write exactly the cells of its block, each with its filtered value.
- `WienerFilter` (`wiener_filter.dfy`) holds the entry point: its
  assertions, the parameters it derives from `bd`, `round_0` and `round_1`,
  the intermediate block, and the per-pixel value `WienerAt` that every
  destination cell receives.
- `WienerProperties` (`wiener_properties.dfy`) proves the following about
  the entry point's result:
  - the ranges of the intermediate and output values;
  - agreement with a reference two-pass filter when samples are at most 14
    bits. The reference is the same fixed-point algorithm in unbounded
    integers: it keeps the offsets, the per-pass rounding and the intermediate
    clamp, but has no 16- or 32-bit wrap-around. It is not a real-valued
    filter;
  - the cancellation of the two rounding offsets: with unity-gain filters and
    `round_0 + round_1 == 14`, a flat block passes through unchanged, and a
    horizontal linear ramp comes out as its midpoint sample.

Arrays are `array<U16>`. A pointer with a stride is a `Plane(pos, stride)`
view into one: `CellAt(pl, r, c) == pl.pos + r * pl.stride + c`. `Row` and
`Col` recover the cell of an index.

## Model

| member | source | states |
|---|---|---|
| WienerArith.Wrap16 | av1/common/arm/highbd_wiener_convolve_neon.c:27-29 | A 16-bit lane holds the unique int16 value congruent to the mathematical sum modulo 2^16. An in-range value is unchanged. |
| WienerArith.Wrap32 | av1/common/arm/highbd_wiener_convolve_neon.c:31-39 | A 32-bit accumulator lane holds the unique int32 value congruent to the exact sum modulo 2^32. An in-range sum is unchanged. |
| WienerArith.RoundShift | av1/common/arm/highbd_wiener_convolve_neon.c:41-42 | `vqrshlq_s32` by `-n` is the identity for `n == 0`. For `n > 0` it rounds to nearest, as `RoundShiftNearest` states. |
| WienerArith.RoundShiftNearest | av1/common/arm/highbd_wiener_convolve_neon.c:41-42 | The rounding shift by `n > 0` rounds to nearest with ties upwards: `r * 2^n <= x + 2^(n-1) < (r + 1) * 2^n`. |
| WienerArith.RoundShiftOfMultiple | av1/common/arm/highbd_wiener_convolve_neon.c:103-104 | Shifting an exact multiple `q * 2^n` with rounding gives back `q`, for every `n` including 0. |
| WienerArith.SaturateU16 | av1/common/arm/highbd_wiener_convolve_neon.c:44 | `vqmovun_s32` yields the uint16 value nearest to its input: no value in `[0, 65535]` is closer. In-range values are unchanged. |
| WienerKernels.MirrorKernel | av1/common/arm/highbd_wiener_convolve_neon.c:25-26 | The 7-tap kernel the four filter lanes stand for is symmetric about tap 3. |
| WienerKernels.FilterLanes | av1/common/arm/highbd_wiener_convolve_neon.c:176-180 | Only stored taps 0..3 are read, and 128 is added to lane 3 only. Without 16-bit wrap the kernel is `[s0, s1, s2, s3 + 128, s2, s1, s0]`. |
| WienerKernels.FoldedIsMirrorDot | av1/common/arm/highbd_wiener_convolve_neon.c:25-39 | Adding mirrored samples before multiplying (`t0*(s0+s6) + t1*(s1+s5) + t2*(s2+s4) + t3*s3`) equals the full 7-tap dot product with the mirrored kernel. |
| WienerKernels.Narrow | av1/common/arm/highbd_wiener_convolve_neon.c:41-45 | Shift, saturate and min clamp the rounded accumulator into `[0, maxVal]`. The result is 0 below that range, `maxVal` above it, and the rounded value inside it. |
| WienerKernels.HLane | av1/common/arm/highbd_wiener_convolve_neon.c:20-46 | One lane of the horizontal kernel never exceeds the clamp `im_max_val`, for every input. |
| WienerKernels.VLane | av1/common/arm/highbd_wiener_convolve_neon.c:76-108 | One lane of the vertical kernel never exceeds the clamp `res_max_val`, for every input. |
| WienerKernels.HLaneExact | av1/common/arm/highbd_wiener_convolve_neon.c:20-46 | Samples below 2^14, bounded taps and a bounded offset give no 16- or 32-bit wrap. The lane is then the clamped rounded exact dot product of the mirrored kernel and the window. |
| WienerKernels.VLaneExact | av1/common/arm/highbd_wiener_convolve_neon.c:76-108 | The same for the vertical lane, for intermediates below 2^15, where reading them as int16 changes nothing. |
| WienerKernels.MirrorDotBound | av1/common/arm/highbd_wiener_convolve_neon.c:31-39 | With taps bounded by 1024 and samples by 2^15, the dot product stays well inside 32 bits. |
| WienerKernels.LoadRows | av1/common/arm/highbd_wiener_convolve_neon.c:60 | `n` vector loads `stride` apart: element `l` of load `k` is the array value at `q + k*stride + l`. |
| WienerKernels.ConvolveH8 | av1/common/arm/highbd_wiener_convolve_neon.c:62-63 | The 8-lane horizontal kernel returns eight results, each within the clamp. |
| WienerKernels.ConvolveV8 | av1/common/arm/highbd_wiener_convolve_neon.c:125-132 | The 8-lane vertical kernel returns eight results, each within the clamp. |
| WienerKernels.ConvolveH8Lanes | av1/common/arm/highbd_wiener_convolve_neon.c:59-63 | With the seven loads one sample apart, lane `l` filters the seven consecutive samples starting at `q + l`. |
| WienerKernels.ConvolveV8Lane | av1/common/arm/highbd_wiener_convolve_neon.c:142-146 | With the seven loads one row apart, lane `l` filters the column of seven values starting at `q + l`. |
| WienerKernels.BatchRowsAreTailRows | av1/common/arm/highbd_wiener_convolve_neon.c:120-139 | Output `d_j` of a 4-row batch filters rows `j .. j+6` of the ten loaded rows `s0..s9`. Those are exactly the seven rows the single-row tail would load for row `j`. |
| WienerPasses.Store8 | av1/common/arm/highbd_wiener_convolve_neon.c:65 | `vst1q_u16` writes its eight lanes at `pos .. pos+7` and changes nothing else. |
| WienerPasses.Store8x4 | av1/common/arm/highbd_wiener_convolve_neon.c:134 | `store_u16_8x4` writes four vectors into four rows `stride` apart and changes nothing else. |
| WienerPasses.DoWhileGroups | av1/common/arm/highbd_wiener_convolve_neon.c:58-70 | The `do`/`while` column counter stops only when started at a positive multiple of 8, and then after one iteration per group of 8. |
| WienerPasses.WidthGroups | av1/common/arm/highbd_wiener_convolve_neon.c:58-70 | The `do { ...; width -= 8; } while (width != 0)` column loop started at a positive multiple of 8 stops after exactly `width / 8` groups. |
| WienerPasses.NonPositiveWidthNeverStops | av1/common/arm/highbd_wiener_convolve_neon.c:58-70 | Started at a width of 0 or less, the same loop never reaches its exit condition. |
| WienerPasses.HStoreStep | av1/common/arm/highbd_wiener_convolve_neon.c:59-69 | One inner iteration reads inside the source. It extends the filled region of row `r` by exactly the eight cells `(r, c0) .. (r, c0+7)`, each holding its filtered value. |
| WienerPasses.HorizRow | av1/common/arm/highbd_wiener_convolve_neon.c:54-70 | The inner loop fills every cell of row `r`, column group by column group, and keeps all other cells. |
| WienerPasses.ConvolveAddSrcHoriz | av1/common/arm/highbd_wiener_convolve_neon.c:48-74 | Every cell `(r, c)` of the `w` x `h` block gets the horizontal kernel of the seven source samples starting at source cell `(r, c)`. Every other value of `dst` is unchanged. |
| WienerPasses.VStoreStep | av1/common/arm/highbd_wiener_convolve_neon.c:141-152 | One tail iteration reads seven rows inside the intermediate block. It extends the filled part of column group `c0` by row `r` exactly. |
| WienerPasses.VBatchStep | av1/common/arm/highbd_wiener_convolve_neon.c:120-139 | One batch iteration reads ten rows inside the block. It stores rows `r .. r+3` of column group `c0`, each with the value the single-row tail gives that row. |
| WienerPasses.VertColumn | av1/common/arm/highbd_wiener_convolve_neon.c:116-152 | The batch loop and then the tail loop fill every row of column group `c0` and keep all other cells. |
| WienerPasses.ConvolveAddSrcVert | av1/common/arm/highbd_wiener_convolve_neon.c:110-158 | Every cell `(r, c)` of the `w` x `h` block gets the vertical kernel of the intermediate column `(r, c) .. (r+6, c)`. Every other value of `dst` is unchanged. |
| WienerFilter.ToU16 | av1/common/arm/highbd_wiener_convolve_neon.c:189 | `vdupq_n_u16` keeps its argument modulo 2^16. An in-range argument is unchanged. |
| WienerFilter.EntryAsserts | av1/common/arm/highbd_wiener_convolve_neon.c:168-171 | The assertions make the width a whole number of 8-column groups, at most 16 of them. |
| WienerFilter.HorizParams | av1/common/arm/highbd_wiener_convolve_neon.c:176-191 | The horizontal pass uses the biased x-filter lanes and shift `round_0`. When the shift is defined, the offset `1 << (bd + 6)` is `2^(bd+6)` and fits 32 bits. For `1 <= clampLimit <= 65536` the clamp `im_max_val` is `clampLimit - 1`. |
| WienerFilter.VertParams | av1/common/arm/highbd_wiener_convolve_neon.c:193-196 | The vertical pass uses the biased y-filter lanes and shift `round_1`. When the shift is defined, the offset is `-2^(bd + round_1 - 1)`, negative and within 32 bits. For `bd <= 16` the clamp `res_max_val` is `2^bd - 1`. |
| WienerFilter.BorderPlane | av1/common/arm/highbd_wiener_convolve_neon.c:201-202 | The view `src - horiz_offset - vert_offset` the horizontal pass starts from keeps the source stride. `BorderCell` gives its cells. |
| WienerFilter.BorderCell | av1/common/arm/highbd_wiener_convolve_neon.c:184-185 | Cell `(r + 3, c + 3)` of the moved view is source cell `(r, c)`: `WIENER_HALFWIN` rows up and columns left. |
| WienerFilter.IntermediateAt | av1/common/arm/highbd_wiener_convolve_neon.c:201-203 | Intermediate `(r, c)` is the horizontal kernel of source row `r - 3`, columns `c - 3 .. c + 3`, and is at most `im_max_val`. |
| WienerFilter.WienerAt | av1/common/arm/highbd_wiener_convolve_neon.c:204-206 | Output `(r, c)` is the vertical kernel of intermediates `(r, c) .. (r + 6, c)`, and is at most `res_max_val`. |
| WienerFilter.ImColumn | av1/common/arm/highbd_wiener_convolve_neon.c:182-185 | The seven intermediate rows the vertical pass reads for output `(r, c)` lie in the `h + 6` rows the horizontal pass wrote at stride `MAX_SB_SIZE`. They hold the intermediates of the window around source `(r, c)`. This holds whatever the block held before. |
| WienerFilter.NonPositiveWidthPassesAsserts | av1/common/arm/highbd_wiener_convolve_neon.c:168-171 | Every multiple of 8 with `w <= 0` satisfies every assertion of the entry point, yet the column loop never stops from any such width. |
| WienerFilter.PositiveWidthStops | av1/common/arm/highbd_wiener_convolve_neon.c:168-171 | Under the assertions and a positive width, the column loops stop after `w / 8` groups. |
| WienerFilter.WienerConvolveAddSrc | av1/common/arm/highbd_wiener_convolve_neon.c:160-207 | Every cell `(r, c)` of the `w` x `h` destination block gets the two-pass value `WienerAt` of the source neighbourhood around `(r, c)`, with the parameters of lines 176-196. No other destination value changes. Source and destination may be the same array. |
| WienerProperties.IntermediateBelowClampLimit | av1/common/arm/highbd_wiener_convolve_neon.c:187-189 | Every intermediate value lies in `[0, clampLimit - 1]`. |
| WienerProperties.OutputBelowPow2 | av1/common/arm/highbd_wiener_convolve_neon.c:193 | For every `bd` up to 16, every output value lies in `[0, 2^bd - 1]`. |
| WienerProperties.WienerAtIsSeparable | av1/common/arm/highbd_wiener_convolve_neon.c:176-196 | For samples of at most 14 bits the lane arithmetic is exact. The output is then the unbounded-integer two-pass fixed-point filter with kernels `[x0,x1,x2,x3+128,x2,x1,x0]` and `[y0,y1,y2,y3+128,y2,y1,y0]`, each pass rounded, shifted and clamped. |
| WienerProperties.UnityKernelGain | av1/common/arm/highbd_wiener_convolve_neon.c:178-180 | When the stored taps sum to zero (counting the mirrored ones twice), the biased kernel has gain exactly 128. |
| WienerProperties.FlatHorizAccumulator | av1/common/arm/highbd_wiener_convolve_neon.c:191 | Over a flat window of `v`, the horizontal accumulator `2^(bd+6) + 128 v` is `(2^(bd+6-round_0) + v * 2^(7-round_0)) * 2^round_0`. |
| WienerProperties.FlatIntermediateBound | av1/common/arm/highbd_wiener_convolve_neon.c:187-189 | That flat intermediate is positive and below `2^(bd+8-round_0)`. |
| WienerProperties.FlatIntermediate | av1/common/arm/highbd_wiener_convolve_neon.c:187-191 | The horizontal pass maps a flat window of `v` exactly to that intermediate, which is below 2^15. |
| WienerProperties.FlatVertAccumulator | av1/common/arm/highbd_wiener_convolve_neon.c:194-196 | When `round_0 + round_1 == 14`, the vertical offset `-2^(bd+round_1-1)` cancels the horizontal one. The accumulator is `v * 2^round_1`. |
| WienerProperties.FlatOutput | av1/common/arm/highbd_wiener_convolve_neon.c:193-196 | The vertical pass maps a flat column of that intermediate back to `v`. |
| WienerProperties.FlatReference | av1/common/arm/highbd_wiener_convolve_neon.c:176-196 | The unbounded-integer reference filter maps a flat neighbourhood of `v` to `v`. |
| WienerProperties.FlatBlockPassesThrough | av1/common/arm/highbd_wiener_convolve_neon.c:176-196 | Suppose both filters have unity gain, `round_0 + round_1 == 14`, the clamp limit is at least `2^(bd+8-round_0)` and the intermediate fits 15 bits. Then the filter maps a flat neighbourhood of a `bd`-bit value `v` to `v`. |
| WienerProperties.ZeroTapsFlatExample | av1/common/arm/highbd_wiener_convolve_neon.c:178-196 | With all stored taps 0, `round_0 = 3`, `round_1 = 11`, `bd = 8` and clamp limit 2^13, a flat 8-bit block `V` comes out exactly `V`. |
| WienerProperties.RampDot | av1/common/arm/highbd_wiener_convolve_neon.c:25-39 | A symmetric kernel weighs a ramp `a - 3b .. a + 3b` exactly as it weighs seven copies of its midpoint `a`. |
| WienerProperties.RampColumn | av1/common/arm/highbd_wiener_convolve_neon.c:187-191 | When every source row is the same ramp, the reference intermediate column is flat at the intermediate of the midpoint `a`. |
| WienerProperties.RampReference | av1/common/arm/highbd_wiener_convolve_neon.c:176-196 | The unbounded-integer reference filter maps a ramp neighbourhood to its midpoint `a`. |
| WienerProperties.RampPassesThrough | av1/common/arm/highbd_wiener_convolve_neon.c:176-196 | Take unity-gain filters, `round_0 + round_1 == 14` and a clamp that does not bite. If every source row around `(r, c)` rises linearly through the window, centred on the `bd`-bit value `a`, the filter's output at `(r, c)` is `a`. |

## Left out

- `test/datarate_test.cc` is not part of this model. It is an encoder rate-control test harness with file I/O and floating-point arithmetic.
- NEON register layout is not modelled. Vectors are sequences of eight lanes. The `mem_neon.h` load and store helpers, which are not shown, are element-wise array reads and writes.
- The bit packing of `vcreate_s16(128ULL << 48)` is modelled only by its effect: 128 added to lane 3.
- `CONVERT_TO_SHORTPTR` and `DECLARE_ALIGNED` are not modelled. Pointers are `Plane` views into `array<U16>`.
- `WIENER_CLAMP_LIMIT` lives in a header that is not shown. Its value is the parameter `clampLimit`.
- `im_block` is left uninitialised in C. The model allocates it without an initialiser, so the proofs hold for any prior contents. `ImColumn` shows that the vertical pass reads only cells the horizontal pass wrote.
- WienerConvolveAddSrc: requires `0 < w`, because the assertions admit every multiple of 8 with `w <= 0`, and then the column loops never stop (see Findings).
- WienerConvolveAddSrc: requires `|src_stride| <= 0x2AAA_AAAA`. Line 185 computes `vert_offset` as `WIENER_HALFWIN * (int)src_stride` in `int`. The cast truncates strides of 2^31 or more, and the product overflows, which is undefined, for larger strides. The model computes the offset exactly only inside this bound.
- WienerConvolveAddSrc: requires `0 <= h`. The assertions do not exclude a negative height. For `h <= -6`, `im_h = h + 6 <= 0` and the horizontal row loop `--h != 0` (line 73) never reaches 0. For `-5 <= h <= -1`, the horizontal pass ends after `im_h` rows, but the vertical tail loop `while (height-- != 0)` (line 141) starts below 0 and never reaches 0.
- WienerConvolveAddSrc: requires `dst_stride >= w` and a non-negative destination origin. Negative or overlapping destination strides are not modelled.
- WienerConvolveAddSrc: requires `ShiftsDefined`. Only two conditions are needed to avoid undefined C: `1 << (bd + 6)` and `1 << (bd + round_1 - 1)` must stay below bit 31. Two further cases are excluded and not modelled. For `round_0 > 128`, `vdupq_n_s32(-round_0)` is defined, but `vqrshlq_s32` reads the low byte as a signed shift, so it shifts by a different amount (a saturating left shift by 56 for `round_0 = 200`). `bd = 0` is also excluded, although the C is defined for it when `round_1 >= 1`.
- IntermediateBelowClampLimit: requires `1 <= clampLimit <= 65536`. Outside that range, `vdupq_n_u16(clampLimit - 1)` wraps and the bound does not hold.
- WienerAtIsSeparable: the exactness result assumes filter lanes bounded by 1024 in magnitude, `bd <= 14` and a clamp limit of at most 2^15. The real tap ranges come from the tap derivation, which is not shown. Outside these bounds the kernels still model 16- and 32-bit wrap-around exactly, and the range results still hold.
- WienerAtIsSeparable: the comparison with a real-valued (double-precision) filter, which should agree within ±1, is not proved. The reference here is the same fixed-point algorithm without wrap-around, not a real-valued filter.
- ConvolveAddSrcVert: states the final contents of every cell, not how many times each cell is written. The source writes each cell once.
- `vqrshlq_s32` is modelled for `round_0` and `round_1` of 0 or more, as a rounding right shift formed at full precision. Its saturation cannot trigger for a right shift, and negative rounding amounts (left shifts) are not modelled.
- `x_step_q4` and `y_step_q4` appear only in the assertions, as in the source.
- Filter-tap derivation, restoration-unit tiling and the bitstream coding of taps are not in the modelled file.

## Findings

| source | as written | input that shows it | evidently intended | confidence | as-written member | corrected member |
|---|---|---|---|---|---|---|
| av1/common/arm/highbd_wiener_convolve_neon.c:168-171 | The assertions accept any `w` with `w % 8 == 0` and `w <= MAX_SB_SIZE`, including 0 and every negative multiple of 8 (`w <= 0`). The column loops at lines 58-70 and 115-157 are `do`/`while` loops that subtract 8 before testing `width != 0` (or `w != 0`). | `w = 0` (or `w = -8`), `h = 0`, both steps 16, all taps 0: every assertion holds. The first column loop then counts down from 0 (or -8) by 8 and never reaches 0. | The entry point requires a positive width, so that each column loop runs `w / 8` times. | not executed | WienerFilter.NonPositiveWidthPassesAsserts | WienerFilter.PositiveWidthStops |
