/** The two pass drivers, `highbd_convolve_add_src_horiz_hip` and
    `highbd_convolve_add_src_vert_hip`: loops over a strided block that load
    vectors, apply a kernel and store eight results at a time. */
module WienerPasses {
  import opened WienerArith
  import opened WienerKernels

  /** A strided 2-D view into an array: the index of its origin and the
      distance between rows (a pointer and its stride). */
  datatype Plane = Plane(pos: int, stride: int)

  function RowStart(pl: Plane, r: int): int
  {
    pl.pos + r * pl.stride
  }

  /** The index of cell `(r, c)` of the view. */
  function CellAt(pl: Plane, r: int, c: int): int
  {
    RowStart(pl, r) + c
  }

  /** Rows `0 .. rows-1` of the view, each `width` values wide, lie inside an
      array of length `len`. */
  predicate RowsFit(len: int, pl: Plane, rows: int, width: int)
  {
    forall r | 0 <= r < rows :: 0 <= RowStart(pl, r) && RowStart(pl, r) + width <= len
  }

  /** The row and the column of index `i` in a view whose rows do not overlap. */
  function Row(pl: Plane, i: int): int
    requires pl.stride > 0
  {
    (i - pl.pos) / pl.stride
  }

  function Col(pl: Plane, i: int): int
    requires pl.stride > 0
  {
    (i - pl.pos) % pl.stride
  }

  /** Index `i` is a cell of the `w` x `h` block at the view's origin. */
  predicate InBlock(pl: Plane, w: int, h: int, i: int)
    requires pl.stride > 0
  {
    pl.pos <= i && 0 <= Row(pl, i) < h && 0 <= Col(pl, i) < w
  }

  /** Cell `(r, c)` of a view with `c` inside the stride has row `r` and column `c`. */
  lemma CellIndex(pl: Plane, r: int, c: int)
    requires pl.stride > 0 && 0 <= r && 0 <= c < pl.stride
    ensures Row(pl, CellAt(pl, r, c)) == r && Col(pl, CellAt(pl, r, c)) == c
  {
    DivModUnique(CellAt(pl, r, c) - pl.pos, pl.stride, r, c);
  }

  /** Every index at or after the origin is the cell of its row and column. */
  lemma IndexCell(pl: Plane, i: int)
    requires pl.stride > 0 && pl.pos <= i
    ensures 0 <= Row(pl, i) && 0 <= Col(pl, i) < pl.stride
    ensures i == CellAt(pl, Row(pl, i), Col(pl, i))
  {
  }

  /** `s` with the values `v` written from index `pos` on. */
  function Splice(s: seq<U16>, pos: int, v: seq<U16>): (r: seq<U16>)
    requires 0 <= pos && pos + |v| <= |s|
    ensures |r| == |s|
    ensures forall i | 0 <= i < |s| :: r[i] == if pos <= i < pos + |v| then v[i - pos] else s[i]
  {
    s[..pos] + v + s[pos + |v|..]
  }

  /** `vst1q_u16`: stores eight lanes at `pos`. */
  method Store8(a: array<U16>, pos: int, v: seq<U16>)
    requires |v| == 8 && 0 <= pos && pos + 8 <= a.Length
    modifies a
    ensures a[..] == Splice(old(a[..]), pos, v)
  {
    forall l | 0 <= l < 8 {
      a[pos + l] := v[l];
    }
  }

  /** `store_u16_8x4`: stores four vectors in four rows `stride` apart. */
  method Store8x4(a: array<U16>, pos: int, stride: int, v0: seq<U16>, v1: seq<U16>, v2: seq<U16>, v3: seq<U16>)
    requires |v0| == |v1| == |v2| == |v3| == 8
    requires LoadsFit(a.Length, pos, stride, 4)
    modifies a
    ensures a[..] == Splice(Splice(Splice(Splice(old(a[..]), At(pos, 0, stride), v0), At(pos, 1, stride), v1), At(pos, 2, stride), v2), At(pos, 3, stride), v3)
  {
    Store8(a, At(pos, 0, stride), v0);
    Store8(a, At(pos, 1, stride), v1);
    Store8(a, At(pos, 2, stride), v2);
    Store8(a, At(pos, 3, stride), v3);
  }

  datatype Option<T> = None | Some(value: T)

  /** The number of iterations a `do { ...; width -= 8; } while (width != 0)`
      loop started at `width` runs (lines 58-70 and 115-157), or `None` if it
      has not stopped after `fuel` iterations. The loop stops only from a
      positive multiple of eight, after one iteration per group of eight. */
  function DoWhileGroups(width: int, fuel: nat): (r: Option<nat>)
    ensures r.Some? ==> 1 <= r.value && width == 8 * r.value
    decreases fuel
  {
    if fuel == 0 then None
    else if width - 8 == 0 then Some(1)
    else match DoWhileGroups(width - 8, fuel - 1)
      case None => None
      case Some(n) => Some(n + 1)
  }

  /** A positive multiple of eight stops after `width / 8` iterations. */
  lemma {:induction false} WidthGroups(width: int, fuel: nat)
    requires 0 < width && width % 8 == 0 && width / 8 <= fuel
    ensures DoWhileGroups(width, fuel) == Some(width / 8)
  {
    if width != 8 {
      WidthGroups(width - 8, fuel - 1);
    }
  }

  /** A width of zero or less never reaches zero again. */
  lemma {:induction false} NonPositiveWidthNeverStops(width: int, fuel: nat)
    requires width <= 0
    ensures DoWhileGroups(width, fuel) == None
    decreases fuel
  {
    if fuel > 0 {
      NonPositiveWidthNeverStops(width - 8, fuel - 1);
    }
  }

  // ---------------------------------------------------------------------
  // Horizontal pass

  /** What the horizontal pass stores at cell `(r, c)`: the kernel applied to
      the seven source samples of row `r` starting at column `c`. */
  function HCell(src: seq<U16>, srcPl: Plane, r: int, c: int, p: PassParams): U16
    requires 0 <= c && 0 <= RowStart(srcPl, r) && RowStart(srcPl, r) + c + 7 <= |src|
  {
    HLane(src[CellAt(srcPl, r, c)..CellAt(srcPl, r, c) + 7], p)
  }

  /** The cells the horizontal pass has stored once rows `0 .. r-1` and the
      first `c0` columns of row `r` are done. */
  predicate HDone(pl: Plane, w: int, rows: int, r: int, c0: int, i: int)
    requires pl.stride > 0
  {
    pl.pos <= i && Col(pl, i) < w && Row(pl, i) < rows &&
    (Row(pl, i) < r || (Row(pl, i) == r && Col(pl, i) < c0))
  }

  /** Value `x` of index `i` is the horizontal result if the cell is done and
      the original value `o` otherwise. */
  predicate HAgrees(x: U16, o: U16, src: seq<U16>, srcPl: Plane, dstPl: Plane,
                    w: int, rows: int, p: PassParams, r: int, c0: int, i: int)
    requires dstPl.stride > 0 && RowsFit(|src|, srcPl, rows, w + 6)
  {
    x == if HDone(dstPl, w, rows, r, c0, i) then HCell(src, srcPl, Row(dstPl, i), Col(dstPl, i), p) else o
  }

  /** `cur` holds the horizontal results in the done cells and the original
      values `orig` everywhere else. */
  predicate HProgress(cur: seq<U16>, orig: seq<U16>, src: seq<U16>, srcPl: Plane, dstPl: Plane,
                      w: int, rows: int, p: PassParams, r: int, c0: int)
    requires dstPl.stride > 0 && RowsFit(|src|, srcPl, rows, w + 6)
  {
    |cur| == |orig| &&
    forall i | 0 <= i < |cur| :: HAgrees(cur[i], orig[i], src, srcPl, dstPl, w, rows, p, r, c0, i)
  }

  /** Storing cells `(r, c0) .. (r, c0 + 7)` moves the horizontal done
      region from column `c0` of row `r` to column `c0 + 8`. */
  lemma HDoneStep(pl: Plane, w: int, rows: int, r: int, c0: int, i: int)
    requires 0 < w <= pl.stride && 0 <= r < rows && 0 <= c0 && c0 + 8 <= w
    ensures HDone(pl, w, rows, r, c0 + 8, i) <==>
      HDone(pl, w, rows, r, c0, i) || CellAt(pl, r, c0) <= i < CellAt(pl, r, c0) + 8
  {
    var d := CellAt(pl, r, c0);
    if d <= i < d + 8 {
      CellIndex(pl, r, c0 + (i - d));
    } else if pl.pos <= i {
      IndexCell(pl, i);
    }
  }

  /** The effect of one inner-loop iteration on a single index `i`: `before`
      and `after` are its values before and after the eight stores. */
  lemma HStoreAt(src: seq<U16>, srcPl: Plane, dstPl: Plane, w: int, rows: int, p: PassParams,
                 r: int, c0: int, i: int, before: U16, after: U16, orig: U16, v: seq<U16>)
    requires 0 < w <= dstPl.stride && RowsFit(|src|, srcPl, rows, w + 6)
    requires 0 <= r < rows && 0 <= c0 && c0 + 8 <= w
    requires 0 <= CellAt(srcPl, r, c0) && CellAt(srcPl, r, c0) + 14 <= |src|
    requires v == ConvolveH8(LoadRows(src, CellAt(srcPl, r, c0), 1, 7), p)
    requires HAgrees(before, orig, src, srcPl, dstPl, w, rows, p, r, c0, i)
    requires after == if CellAt(dstPl, r, c0) <= i < CellAt(dstPl, r, c0) + 8 then v[i - CellAt(dstPl, r, c0)] else before
    ensures HAgrees(after, orig, src, srcPl, dstPl, w, rows, p, r, c0 + 8, i)
  {
    hide HLane;
    var q, d := CellAt(srcPl, r, c0), CellAt(dstPl, r, c0);
    HDoneStep(dstPl, w, rows, r, c0, i);
    if d <= i < d + 8 {
      var l := i - d;
      CellIndex(dstPl, r, c0 + l);
      ConvolveH8Lanes(src, q, p);
      assert v[l] == HLane(src[q + l..q + l + 7], p);
    }
  }

  /** One iteration of the inner loop (lines 59-69) stores the eight results
      of cells `(r, c0) .. (r, c0 + 7)` and touches nothing else. */
  lemma HStoreStep(cur: seq<U16>, orig: seq<U16>, src: seq<U16>, srcPl: Plane, dstPl: Plane,
                   w: int, rows: int, p: PassParams, r: int, c0: int)
    requires 0 < w <= dstPl.stride && RowsFit(|src|, srcPl, rows, w + 6) && RowsFit(|cur|, dstPl, rows, w)
    requires 0 <= r < rows && 0 <= c0 && c0 + 8 <= w
    requires HProgress(cur, orig, src, srcPl, dstPl, w, rows, p, r, c0)
    ensures 0 <= CellAt(srcPl, r, c0) && CellAt(srcPl, r, c0) + 14 <= |src|
    ensures LoadsFit(|src|, CellAt(srcPl, r, c0), 1, 7)
    ensures 0 <= CellAt(dstPl, r, c0) && CellAt(dstPl, r, c0) + 8 <= |cur|
    ensures HProgress(Splice(cur, CellAt(dstPl, r, c0), ConvolveH8(LoadRows(src, CellAt(srcPl, r, c0), 1, 7), p)),
                      orig, src, srcPl, dstPl, w, rows, p, r, c0 + 8)
  {
    hide HLane, ConvolveH8, HAgrees;
    var q, d := CellAt(srcPl, r, c0), CellAt(dstPl, r, c0);
    assert RowStart(srcPl, r) + w + 6 <= |src|;
    ConvolveH8Lanes(src, q, p);
    var v := ConvolveH8(LoadRows(src, q, 1, 7), p);
    var next := Splice(cur, d, v);
    forall i | 0 <= i < |next|
      ensures HAgrees(next[i], orig[i], src, srcPl, dstPl, w, rows, p, r, c0 + 8, i)
    {
      HStoreAt(src, srcPl, dstPl, w, rows, p, r, c0, i, cur[i], next[i], orig[i], v);
    }
  }

  /** Before the first row nothing is done. */
  lemma HStart(orig: seq<U16>, src: seq<U16>, srcPl: Plane, dstPl: Plane, w: int, rows: int, p: PassParams)
    requires 0 < dstPl.stride && RowsFit(|src|, srcPl, rows, w + 6)
    ensures HProgress(orig, orig, src, srcPl, dstPl, w, rows, p, 0, 0)
  {
    forall i | 0 <= i < |orig|
      ensures HAgrees(orig[i], orig[i], src, srcPl, dstPl, w, rows, p, 0, 0, i)
    {
      if dstPl.pos <= i {
        IndexCell(dstPl, i);
      }
    }
  }

  /** Finishing the last column group of row `r` is starting row `r + 1`. */
  lemma HNextRow(cur: seq<U16>, orig: seq<U16>, src: seq<U16>, srcPl: Plane, dstPl: Plane,
                 w: int, rows: int, p: PassParams, r: int)
    requires 0 < w <= dstPl.stride && RowsFit(|src|, srcPl, rows, w + 6)
    requires HProgress(cur, orig, src, srcPl, dstPl, w, rows, p, r, w)
    ensures HProgress(cur, orig, src, srcPl, dstPl, w, rows, p, r + 1, 0)
  {
    hide HLane;
    forall i | 0 <= i < |cur|
      ensures HAgrees(cur[i], orig[i], src, srcPl, dstPl, w, rows, p, r + 1, 0, i)
    {
      assert HAgrees(cur[i], orig[i], src, srcPl, dstPl, w, rows, p, r, w, i);
      if dstPl.pos <= i {
        IndexCell(dstPl, i);
      }
    }
  }

  /** Once all rows are done, exactly the cells of the block hold results. */
  lemma HFinish(cur: seq<U16>, orig: seq<U16>, src: seq<U16>, srcPl: Plane, dstPl: Plane,
                w: int, rows: int, p: PassParams)
    requires 0 < w <= dstPl.stride && RowsFit(|src|, srcPl, rows, w + 6)
    requires HProgress(cur, orig, src, srcPl, dstPl, w, rows, p, rows, 0)
    ensures forall i | 0 <= i < |cur| ::
      cur[i] == if InBlock(dstPl, w, rows, i) then HCell(src, srcPl, Row(dstPl, i), Col(dstPl, i), p) else orig[i]
  {
    hide HLane;
    forall i | 0 <= i < |cur|
      ensures cur[i] == if InBlock(dstPl, w, rows, i) then HCell(src, srcPl, Row(dstPl, i), Col(dstPl, i), p) else orig[i]
    {
      assert HAgrees(cur[i], orig[i], src, srcPl, dstPl, w, rows, p, rows, 0, i);
      if dstPl.pos <= i {
        IndexCell(dstPl, i);
      }
    }
  }

  lemma NextRowStart(pl: Plane, r: int)
    ensures RowStart(pl, r) + pl.stride == RowStart(pl, r + 1)
  {
  }

  /** One row of the horizontal pass (lines 54-70): eight cells at a time,
      from column 0 to column `w`, row `r` of `dst` receives its filtered
      values. */
  method HorizRow(src: array<U16>, srcPl: Plane, dst: array<U16>, dstPl: Plane,
                  w: int, h: int, p: PassParams, ghost r: int, srcRow: int, dstRow: int, ghost orig: seq<U16>)
    requires src != dst
    requires 0 < w && w % 8 == 0 && 0 <= r < h
    requires RowsFit(src.Length, srcPl, h, w + 6)
    requires w <= dstPl.stride && RowsFit(dst.Length, dstPl, h, w)
    requires srcRow == RowStart(srcPl, r) && dstRow == RowStart(dstPl, r)
    requires HProgress(dst[..], orig, src[..], srcPl, dstPl, w, h, p, r, 0)
    modifies dst
    ensures HProgress(dst[..], orig, src[..], srcPl, dstPl, w, h, p, r, w)
  {
    hide HLane, ConvolveH8, HAgrees, HProgress, HDone, HCell, Splice, LoadRows, InBlock, Row, Col;
    var s, d, width := srcRow, dstRow, w;
    while width != 0
      invariant 0 <= width <= w && width % 8 == 0
      invariant s == CellAt(srcPl, r, w - width) && d == CellAt(dstPl, r, w - width)
      invariant HProgress(dst[..], orig, src[..], srcPl, dstPl, w, h, p, r, w - width)
    {
      HStoreStep(dst[..], orig, src[..], srcPl, dstPl, w, h, p, r, w - width);
      var d0 := ConvolveH8(LoadRows(src[..], s, 1, 7), p);
      Store8(dst, d, d0);
      s, d, width := s + 8, d + 8, width - 8;
    }
  }

  /** `highbd_convolve_add_src_horiz_hip` (lines 48-74): every cell of the
      `w` x `h` block of `dst` receives the horizontal kernel applied to the
      seven source samples starting at the same cell of `src`; no other
      value of `dst` changes. */
  method ConvolveAddSrcHoriz(src: array<U16>, srcPl: Plane, dst: array<U16>, dstPl: Plane,
                             w: int, h: int, p: PassParams)
    requires src != dst
    requires 0 < w && w % 8 == 0 && 0 < h
    requires RowsFit(src.Length, srcPl, h, w + 6)
    requires w <= dstPl.stride && RowsFit(dst.Length, dstPl, h, w)
    modifies dst
    ensures forall i | 0 <= i < dst.Length ::
      dst[i] == if InBlock(dstPl, w, h, i) then HCell(src[..], srcPl, Row(dstPl, i), Col(dstPl, i), p) else old(dst[i])
  {
    hide HLane, ConvolveH8, HAgrees, HProgress, HDone, HCell, Splice, LoadRows, InBlock, Row, Col;
    HStart(dst[..], src[..], srcPl, dstPl, w, h, p);
    var srcRow, dstRow, rows := srcPl.pos, dstPl.pos, h;
    while rows != 0
      invariant 0 <= rows <= h
      invariant srcRow == RowStart(srcPl, h - rows) && dstRow == RowStart(dstPl, h - rows)
      invariant HProgress(dst[..], old(dst[..]), src[..], srcPl, dstPl, w, h, p, h - rows, 0)
    {
      ghost var r := h - rows;
      HorizRow(src, srcPl, dst, dstPl, w, h, p, r, srcRow, dstRow, old(dst[..]));
      HNextRow(dst[..], old(dst[..]), src[..], srcPl, dstPl, w, h, p, r);
      NextRowStart(srcPl, r);
      NextRowStart(dstPl, r);
      srcRow, dstRow, rows := srcRow + srcPl.stride, dstRow + dstPl.stride, rows - 1;
    }
    HFinish(dst[..], old(dst[..]), src[..], srcPl, dstPl, w, h, p);
  }

  // ---------------------------------------------------------------------
  // Vertical pass

  /** The seven-row column of every cell of a `w` x `h` block lies inside an
      array of length `len`. */
  predicate ColumnsFit(len: int, pl: Plane, h: int, w: int)
  {
    forall r, c | 0 <= r < h && 0 <= c < w :: ColumnFits(len, CellAt(pl, r, c), pl.stride)
  }

  lemma RowsFitColumns(len: int, pl: Plane, h: int, w: int)
    requires RowsFit(len, pl, h + 6, w)
    ensures ColumnsFit(len, pl, h, w)
  {
    forall r, c | 0 <= r < h && 0 <= c < w
      ensures ColumnFits(len, CellAt(pl, r, c), pl.stride)
    {
      var q := CellAt(pl, r, c);
      forall k | 0 <= k < 7
        ensures 0 <= At(q, k, pl.stride) < len
      {
        assert At(q, k, pl.stride) == RowStart(pl, r + k) + c;
      }
    }
  }

  /** `n` eight-wide loads going down from cell `(r, c0)` stay inside the rows. */
  lemma RowsFitLoads(len: int, pl: Plane, rows: int, w: int, r: int, c0: int, n: nat)
    requires RowsFit(len, pl, rows, w)
    requires 0 <= r && r + n <= rows && 0 <= c0 && c0 + 8 <= w
    ensures LoadsFit(len, CellAt(pl, r, c0), pl.stride, n)
  {
    var q := CellAt(pl, r, c0);
    forall k | 0 <= k < n
      ensures 0 <= At(q, k, pl.stride) && At(q, k, pl.stride) + 8 <= len
    {
      assert At(q, k, pl.stride) == RowStart(pl, r + k) + c0;
    }
  }

  /** What the vertical pass stores at cell `(r, c)`: the kernel applied to
      the column of seven intermediate values starting at the same cell. */
  function VCell(im: seq<U16>, imPl: Plane, r: int, c: int, p: PassParams): U16
    requires ColumnFits(|im|, CellAt(imPl, r, c), imPl.stride)
  {
    VLane(Column(im, CellAt(imPl, r, c), imPl.stride), p)
  }

  /** The cells the vertical pass has stored once the column groups before
      `c0` are done and the first `r` rows of group `c0` are done. */
  predicate VDone(pl: Plane, w: int, h: int, c0: int, r: int, i: int)
    requires pl.stride > 0
  {
    pl.pos <= i && Row(pl, i) < h && Col(pl, i) < w &&
    (Col(pl, i) < c0 || (Col(pl, i) < c0 + 8 && Row(pl, i) < r))
  }

  /** Value `x` of index `i` is the vertical result if the cell is done and
      the original value `o` otherwise. */
  predicate VAgrees(x: U16, o: U16, im: seq<U16>, imPl: Plane, dstPl: Plane,
                    w: int, h: int, p: PassParams, c0: int, r: int, i: int)
    requires dstPl.stride > 0 && ColumnsFit(|im|, imPl, h, w)
  {
    x == if VDone(dstPl, w, h, c0, r, i) then VCell(im, imPl, Row(dstPl, i), Col(dstPl, i), p) else o
  }

  /** `cur` holds the vertical results in the done cells and the original
      values `orig` everywhere else. */
  predicate VProgress(cur: seq<U16>, orig: seq<U16>, im: seq<U16>, imPl: Plane, dstPl: Plane,
                      w: int, h: int, p: PassParams, c0: int, r: int)
    requires dstPl.stride > 0 && ColumnsFit(|im|, imPl, h, w)
  {
    |cur| == |orig| &&
    forall i | 0 <= i < |cur| :: VAgrees(cur[i], orig[i], im, imPl, dstPl, w, h, p, c0, r, i)
  }

  /** The effect of storing row `r` of column group `c0` on a single index `i`. */
  lemma VStoreAt(im: seq<U16>, imPl: Plane, dstPl: Plane, w: int, h: int, p: PassParams,
                 c0: int, r: int, i: int, before: U16, after: U16, orig: U16, v: seq<U16>)
    requires 0 < w <= dstPl.stride && 0 < imPl.stride && ColumnsFit(|im|, imPl, h, w)
    requires 0 <= r < h && 0 <= c0 && c0 + 8 <= w
    requires LoadsFit(|im|, CellAt(imPl, r, c0), imPl.stride, 7)
    requires v == ConvolveV8(LoadRows(im, CellAt(imPl, r, c0), imPl.stride, 7), p)
    requires VAgrees(before, orig, im, imPl, dstPl, w, h, p, c0, r, i)
    requires after == if CellAt(dstPl, r, c0) <= i < CellAt(dstPl, r, c0) + 8 then v[i - CellAt(dstPl, r, c0)] else before
    ensures VAgrees(after, orig, im, imPl, dstPl, w, h, p, c0, r + 1, i)
  {
    hide VLane;
    var q, d := CellAt(imPl, r, c0), CellAt(dstPl, r, c0);
    if d <= i < d + 8 {
      var l := i - d;
      CellIndex(dstPl, r, c0 + l);
      ConvolveV8Lane(im, q, imPl.stride, p, l);
      assert q + l == CellAt(imPl, r, c0 + l);
    } else if dstPl.pos <= i {
      IndexCell(dstPl, i);
    }
  }

  /** Storing the results of row `r` of column group `c0` extends the done
      region by exactly those eight cells. */
  lemma VStoreStep(cur: seq<U16>, orig: seq<U16>, im: seq<U16>, imPl: Plane, dstPl: Plane,
                   w: int, h: int, p: PassParams, c0: int, r: int)
    requires 0 < w <= dstPl.stride && 0 < imPl.stride && RowsFit(|im|, imPl, h + 6, w) && RowsFit(|cur|, dstPl, h, w)
    requires 0 <= r < h && 0 <= c0 && c0 + 8 <= w
    requires ColumnsFit(|im|, imPl, h, w)
    requires VProgress(cur, orig, im, imPl, dstPl, w, h, p, c0, r)
    ensures LoadsFit(|im|, CellAt(imPl, r, c0), imPl.stride, 7)
    ensures 0 <= CellAt(dstPl, r, c0) && CellAt(dstPl, r, c0) + 8 <= |cur|
    ensures VProgress(Splice(cur, CellAt(dstPl, r, c0), ConvolveV8(LoadRows(im, CellAt(imPl, r, c0), imPl.stride, 7), p)),
                      orig, im, imPl, dstPl, w, h, p, c0, r + 1)
  {
    hide VLane, ConvolveV8, VAgrees;
    var q, d := CellAt(imPl, r, c0), CellAt(dstPl, r, c0);
    RowsFitLoads(|im|, imPl, h + 6, w, r, c0, 7);
    assert RowStart(dstPl, r) + w <= |cur|;
    var v := ConvolveV8(LoadRows(im, q, imPl.stride, 7), p);
    var next := Splice(cur, d, v);
    forall i | 0 <= i < |next|
      ensures VAgrees(next[i], orig[i], im, imPl, dstPl, w, h, p, c0, r + 1, i)
    {
      VStoreAt(im, imPl, dstPl, w, h, p, c0, r, i, cur[i], next[i], orig[i], v);
    }
  }

  /** Before the first column group nothing is done. */
  lemma VStart(orig: seq<U16>, im: seq<U16>, imPl: Plane, dstPl: Plane, w: int, h: int, p: PassParams)
    requires 0 < dstPl.stride && ColumnsFit(|im|, imPl, h, w)
    ensures VProgress(orig, orig, im, imPl, dstPl, w, h, p, 0, 0)
  {
    forall i | 0 <= i < |orig|
      ensures VAgrees(orig[i], orig[i], im, imPl, dstPl, w, h, p, 0, 0, i)
    {
      if dstPl.pos <= i {
        IndexCell(dstPl, i);
      }
    }
  }

  /** Finishing all rows of column group `c0` is starting group `c0 + 8`. */
  lemma VNextGroup(cur: seq<U16>, orig: seq<U16>, im: seq<U16>, imPl: Plane, dstPl: Plane,
                   w: int, h: int, p: PassParams, c0: int)
    requires 0 < w <= dstPl.stride && ColumnsFit(|im|, imPl, h, w)
    requires VProgress(cur, orig, im, imPl, dstPl, w, h, p, c0, h)
    ensures VProgress(cur, orig, im, imPl, dstPl, w, h, p, c0 + 8, 0)
  {
    hide VLane;
    forall i | 0 <= i < |cur|
      ensures VAgrees(cur[i], orig[i], im, imPl, dstPl, w, h, p, c0 + 8, 0, i)
    {
      assert VAgrees(cur[i], orig[i], im, imPl, dstPl, w, h, p, c0, h, i);
      if dstPl.pos <= i {
        IndexCell(dstPl, i);
      }
    }
  }

  /** Once all column groups are done, exactly the cells of the block hold results. */
  lemma VFinish(cur: seq<U16>, orig: seq<U16>, im: seq<U16>, imPl: Plane, dstPl: Plane,
                w: int, h: int, p: PassParams)
    requires 0 < w <= dstPl.stride && ColumnsFit(|im|, imPl, h, w)
    requires VProgress(cur, orig, im, imPl, dstPl, w, h, p, w, 0)
    ensures forall i | 0 <= i < |cur| ::
      cur[i] == if InBlock(dstPl, w, h, i) then VCell(im, imPl, Row(dstPl, i), Col(dstPl, i), p) else orig[i]
  {
    hide VLane;
    forall i | 0 <= i < |cur|
      ensures cur[i] == if InBlock(dstPl, w, h, i) then VCell(im, imPl, Row(dstPl, i), Col(dstPl, i), p) else orig[i]
    {
      assert VAgrees(cur[i], orig[i], im, imPl, dstPl, w, h, p, w, 0, i);
      if dstPl.pos <= i {
        IndexCell(dstPl, i);
      }
    }
  }

  /** Going `k` rows down from cell `(r, c)` reaches cell `(r + k, c)`. */
  lemma CellBelow(pl: Plane, r: int, c: int, k: int)
    ensures At(CellAt(pl, r, c), k, pl.stride) == CellAt(pl, r + k, c)
  {
    assert (r + k) * pl.stride == r * pl.stride + k * pl.stride;
  }

  /** One iteration of the four-row loop (lines 120-139) stores rows
      `r .. r + 3` of column group `c0`; each of its four results is the
      single-row result for its row. */
  lemma VBatchStep(cur: seq<U16>, orig: seq<U16>, im: seq<U16>, imPl: Plane, dstPl: Plane,
                   w: int, h: int, p: PassParams, c0: int, r: int)
    requires 0 < w <= dstPl.stride && 0 < imPl.stride && RowsFit(|im|, imPl, h + 6, w) && RowsFit(|cur|, dstPl, h, w)
    requires 0 <= r && r + 4 <= h && 0 <= c0 && c0 + 8 <= w
    requires ColumnsFit(|im|, imPl, h, w)
    requires VProgress(cur, orig, im, imPl, dstPl, w, h, p, c0, r)
    ensures LoadsFit(|im|, CellAt(imPl, r, c0), imPl.stride, 10)
    ensures LoadsFit(|cur|, CellAt(dstPl, r, c0), dstPl.stride, 4)
    ensures var rows, d, ds := LoadRows(im, CellAt(imPl, r, c0), imPl.stride, 10), CellAt(dstPl, r, c0), dstPl.stride;
      VProgress(Splice(Splice(Splice(Splice(cur, At(d, 0, ds), ConvolveV8(rows[0..7], p)),
                                     At(d, 1, ds), ConvolveV8(rows[1..8], p)),
                              At(d, 2, ds), ConvolveV8(rows[2..9], p)),
                       At(d, 3, ds), ConvolveV8(rows[3..10], p)),
                orig, im, imPl, dstPl, w, h, p, c0, r + 4)
  {
    hide VLane, ConvolveV8, VProgress, Splice, LoadRows;
    var q, d, ds := CellAt(imPl, r, c0), CellAt(dstPl, r, c0), dstPl.stride;
    RowsFitLoads(|im|, imPl, h + 6, w, r, c0, 10);
    RowsFitLoads(|cur|, dstPl, h, w, r, c0, 4);
    var rows := LoadRows(im, q, imPl.stride, 10);
    VStoreStep(cur, orig, im, imPl, dstPl, w, h, p, c0, r);
    BatchRowsAreTailRows(im, q, imPl.stride, 0);
    CellBelow(imPl, r, c0, 0);
    CellBelow(dstPl, r, c0, 0);
    var g1 := Splice(cur, At(d, 0, ds), ConvolveV8(rows[0..7], p));
    VStoreStep(g1, orig, im, imPl, dstPl, w, h, p, c0, r + 1);
    BatchRowsAreTailRows(im, q, imPl.stride, 1);
    CellBelow(imPl, r, c0, 1);
    CellBelow(dstPl, r, c0, 1);
    var g2 := Splice(g1, At(d, 1, ds), ConvolveV8(rows[1..8], p));
    VStoreStep(g2, orig, im, imPl, dstPl, w, h, p, c0, r + 2);
    BatchRowsAreTailRows(im, q, imPl.stride, 2);
    CellBelow(imPl, r, c0, 2);
    CellBelow(dstPl, r, c0, 2);
    var g3 := Splice(g2, At(d, 2, ds), ConvolveV8(rows[2..9], p));
    VStoreStep(g3, orig, im, imPl, dstPl, w, h, p, c0, r + 3);
    BatchRowsAreTailRows(im, q, imPl.stride, 3);
    CellBelow(imPl, r, c0, 3);
    CellBelow(dstPl, r, c0, 3);
  }

  /** One column group of the vertical pass (lines 116-152): four rows at a
      time while at least four remain, then one row at a time, the eight
      columns from `c0` of every row of `dst` receive their filtered values. */
  method VertColumn(src: array<U16>, srcPl: Plane, dst: array<U16>, dstPl: Plane,
                    w: int, h: int, p: PassParams, ghost c0: int, srcCol: int, dstCol: int, ghost orig: seq<U16>)
    requires src != dst
    requires 0 < w && 0 <= h && 0 <= c0 && c0 + 8 <= w
    requires 0 < srcPl.stride && RowsFit(src.Length, srcPl, h + 6, w) && ColumnsFit(src.Length, srcPl, h, w)
    requires w <= dstPl.stride && 0 <= dstPl.pos && RowsFit(dst.Length, dstPl, h, w)
    requires srcCol == CellAt(srcPl, 0, c0) && dstCol == CellAt(dstPl, 0, c0)
    requires VProgress(dst[..], orig, src[..], srcPl, dstPl, w, h, p, c0, 0)
    modifies dst
    ensures VProgress(dst[..], orig, src[..], srcPl, dstPl, w, h, p, c0, h)
  {
    hide VLane, ConvolveV8, VAgrees, VProgress, VDone, VCell, Splice, LoadRows, InBlock, Row, Col;
    var s, d, height := srcCol, dstCol, h;
    while height > 3
      invariant 0 <= height <= h
      invariant s == CellAt(srcPl, h - height, c0) && d == CellAt(dstPl, h - height, c0)
      invariant VProgress(dst[..], orig, src[..], srcPl, dstPl, w, h, p, c0, h - height)
    {
      ghost var r := h - height;
      VBatchStep(dst[..], orig, src[..], srcPl, dstPl, w, h, p, c0, r);
      var rows := LoadRows(src[..], s, srcPl.stride, 10);
      var d0 := ConvolveV8(rows[0..7], p);
      var d1 := ConvolveV8(rows[1..8], p);
      var d2 := ConvolveV8(rows[2..9], p);
      var d3 := ConvolveV8(rows[3..10], p);
      Store8x4(dst, d, dstPl.stride, d0, d1, d2, d3);
      CellBelow(srcPl, r, c0, 4);
      CellBelow(dstPl, r, c0, 4);
      s, d, height := s + 4 * srcPl.stride, d + 4 * dstPl.stride, height - 4;
    }
    while height != 0
      invariant 0 <= height <= h
      invariant s == CellAt(srcPl, h - height, c0) && d == CellAt(dstPl, h - height, c0)
      invariant VProgress(dst[..], orig, src[..], srcPl, dstPl, w, h, p, c0, h - height)
    {
      ghost var r := h - height;
      VStoreStep(dst[..], orig, src[..], srcPl, dstPl, w, h, p, c0, r);
      var d0 := ConvolveV8(LoadRows(src[..], s, srcPl.stride, 7), p);
      Store8(dst, d, d0);
      CellBelow(srcPl, r, c0, 1);
      CellBelow(dstPl, r, c0, 1);
      s, d, height := s + srcPl.stride, d + dstPl.stride, height - 1;
    }
  }

  /** `highbd_convolve_add_src_vert_hip` (lines 110-158): every cell of the
      `w` x `h` block of `dst` receives the vertical kernel applied to the
      column of seven intermediate values starting at the same cell of `src`;
      no other value of `dst` changes. Column groups of eight are taken left
      to right; within a group, rows go four at a time and then one at a time. */
  method ConvolveAddSrcVert(src: array<U16>, srcPl: Plane, dst: array<U16>, dstPl: Plane,
                            w: int, h: int, p: PassParams)
    requires src != dst
    requires 0 < w && w % 8 == 0 && 0 <= h
    requires 0 < srcPl.stride && RowsFit(src.Length, srcPl, h + 6, w)
    requires w <= dstPl.stride && 0 <= dstPl.pos && RowsFit(dst.Length, dstPl, h, w)
    modifies dst
    ensures ColumnsFit(src.Length, srcPl, h, w)
    ensures forall i | 0 <= i < dst.Length ::
      dst[i] == if InBlock(dstPl, w, h, i) then VCell(src[..], srcPl, Row(dstPl, i), Col(dstPl, i), p) else old(dst[i])
  {
    hide VLane, ConvolveV8, VAgrees, VProgress, VDone, VCell, Splice, LoadRows, InBlock, Row, Col;
    RowsFitColumns(src.Length, srcPl, h, w);
    VStart(dst[..], src[..], srcPl, dstPl, w, h, p);
    var srcCol, dstCol, width := srcPl.pos, dstPl.pos, w;
    while width != 0
      invariant 0 <= width <= w && width % 8 == 0
      invariant srcCol == CellAt(srcPl, 0, w - width) && dstCol == CellAt(dstPl, 0, w - width)
      invariant VProgress(dst[..], old(dst[..]), src[..], srcPl, dstPl, w, h, p, w - width, 0)
    {
      ghost var c0 := w - width;
      VertColumn(src, srcPl, dst, dstPl, w, h, p, c0, srcCol, dstCol, old(dst[..]));
      VNextGroup(dst[..], old(dst[..]), src[..], srcPl, dstPl, w, h, p, c0);
      srcCol, dstCol, width := srcCol + 8, dstCol + 8, width - 8;
    }
    VFinish(dst[..], old(dst[..]), src[..], srcPl, dstPl, w, h, p);
  }
}
