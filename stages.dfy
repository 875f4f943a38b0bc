/**
 * The stages of one ADM scale after the wavelet transform: adm_decouple,
 * adm_csf, adm_cm_thresh, adm_cm, adm_sum_cube and adm_buffer_copy.  All of
 * them use one stride px (buf_stride / sizeof(int16_t)) for every view.
 */
module AdmStages {
  import opened AdmArith
  import opened AdmPixel
  import opened AdmGrid

  /** The view of band offset o at stride px. */
  function V(o: nat, px: nat): View { View(o, px) }

  /** The detail bands h, v, d of a band set, in that order. */
  function Details(b: BandSet, px: nat): (r: seq<View>)
    ensures |r| == 3
  {
    [V(b.h, px), V(b.v, px), V(b.d, px)]
  }

  // ---------------------------------------------------------------------
  // adm_decouple
  // ---------------------------------------------------------------------

  /** adm_decouple: reads h, v, d of ref then of main; writes h, v, d of r then of a. */
  function DecoupleStage(ref: BandSet, main: BandSet, r: BandSet, a: BandSet, w: nat, h: nat, px: nat): (st: Stage)
    ensures st.op == DecoupleOp && st.rows == h && st.cols == w
  {
    Stage(DecoupleOp, Details(ref, px) + Details(main, px), Details(r, px) + Details(a, px), h, w)
  }

  method Decouple(buf: array<Int16>, ref: BandSet, main: BandSet, r: BandSet, a: BandSet, w: nat, h: nat, px: nat)
    requires WellFormed(DecoupleStage(ref, main, r, a, w, h, px), buf.Length)
    modifies buf
    ensures buf[..] == Raster(DecoupleStage(ref, main, r, a, w, h, px), old(buf[..]))
  {
    RunStage(buf, DecoupleStage(ref, main, r, a, w, h, px));
  }

  /**
   * With the six output bands apart from each other and from the inputs,
   * cell (i, j) of output k is the decoupled value of the six inputs at
   * (i, j) as they were before the stage.
   */
  lemma DecoupleCell(ref: BandSet, main: BandSet, r: BandSet, a: BandSet, w: nat, h: nat, px: nat,
                     s: seq<Int16>, k: nat, i: nat, j: nat)
    requires WellFormed(DecoupleStage(ref, main, r, a, w, h, px), |s|)
    requires DstsDistinct(DecoupleStage(ref, main, r, a, w, h, px)) && SrcsApart(DecoupleStage(ref, main, r, a, w, h, px))
    requires k < 6 && i < h && j < w
    ensures var st := DecoupleStage(ref, main, r, a, w, h, px);
            CellInside(st.srcs, i, j, |s|) && CellInside(st.dsts, i, j, |s|) &&
            Raster(st, s)[Pos(st.dsts[k], i, j)] == DecouplePixel(Reads(st.srcs, s, i, j))[k]
  {
    var st := DecoupleStage(ref, main, r, a, w, h, px);
    RasterValue(st, s, k, i, j);
    InsideOfFit(st.dsts, h, w, |s|, i, j);
  }

  // ---------------------------------------------------------------------
  // adm_csf
  // ---------------------------------------------------------------------

  /** Orientation theta of adm_csf: src_angles[theta] times rfactor[theta] into dst_angles[theta]. */
  function CsfStage(src: BandSet, dst: BandSet, scale: nat, theta: nat, w: nat, h: nat, px: nat): (st: Stage)
    requires scale < 4 && theta < 3
    ensures st.rows == h && st.cols == w && st.op == CsfOp(RFactor(scale, theta))
  {
    Stage(CsfOp(RFactor(scale, theta)), [V(Angle(src, theta), px)], [V(Angle(dst, theta), px)], h, w)
  }

  /** The three orientation bands of src and dst fit a buffer of length len. */
  predicate AnglesFit(src: BandSet, dst: BandSet, w: nat, h: nat, px: nat, len: nat) {
    forall theta :: 0 <= theta < 3 ==> Fits(V(Angle(src, theta), px), h, w, len) && Fits(V(Angle(dst, theta), px), h, w, len)
  }

  lemma CsfStageWellFormed(src: BandSet, dst: BandSet, scale: nat, theta: nat, w: nat, h: nat, px: nat, len: nat)
    requires scale < 4 && theta < 3 && AnglesFit(src, dst, w, h, px, len)
    ensures WellFormed(CsfStage(src, dst, scale, theta, w, h, px), len)
  {
  }

  /** Orientations 0 .. n-1 of adm_csf, one after the other. */
  function CsfAngles(s: seq<Int16>, src: BandSet, dst: BandSet, scale: nat, w: nat, h: nat, px: nat, n: nat): (r: seq<Int16>)
    requires scale < 4 && n <= 3 && AnglesFit(src, dst, w, h, px, |s|)
    ensures |r| == |s|
  {
    if n == 0 then s
    else
      var prev := CsfAngles(s, src, dst, scale, w, h, px, n - 1);
      CsfStageWellFormed(src, dst, scale, n - 1, w, h, px, |prev|);
      Raster(CsfStage(src, dst, scale, n - 1, w, h, px), prev)
  }

  /** adm_csf over all three orientations. */
  function CsfArena(s: seq<Int16>, src: BandSet, dst: BandSet, scale: nat, w: nat, h: nat, px: nat): (r: seq<Int16>)
    requires scale < 4 && AnglesFit(src, dst, w, h, px, |s|)
    ensures |r| == |s|
  {
    CsfAngles(s, src, dst, scale, w, h, px, 3)
  }

  method Csf(buf: array<Int16>, src: BandSet, dst: BandSet, scale: nat, w: nat, h: nat, px: nat)
    requires scale < 4 && AnglesFit(src, dst, w, h, px, buf.Length)
    modifies buf
    ensures buf[..] == CsfArena(old(buf[..]), src, dst, scale, w, h, px)
  {
    ghost var s0 := buf[..];
    var theta := 0;
    while theta < 3
      invariant 0 <= theta <= 3
      invariant buf[..] == CsfAngles(s0, src, dst, scale, w, h, px, theta)
    {
      CsfStageWellFormed(src, dst, scale, theta, w, h, px, buf.Length);
      RunStage(buf, CsfStage(src, dst, scale, theta, w, h, px));
      theta := theta + 1;
    }
  }

  /**
   * One orientation of adm_csf with its source and destination apart: cell
   * (i, j) of the destination is (rfactor[theta] * x) >> 15 of the source cell x.
   */
  lemma CsfCell(src: BandSet, dst: BandSet, scale: nat, theta: nat, w: nat, h: nat, px: nat, s: seq<Int16>, i: nat, j: nat)
    requires scale < 4 && theta < 3 && i < h && j < w
    requires var st := CsfStage(src, dst, scale, theta, w, h, px); WellFormed(st, |s|) && DstsDistinct(st) && SrcsApart(st)
    ensures Pos(V(Angle(src, theta), px), i, j) < |s| && Pos(V(Angle(dst, theta), px), i, j) < |s|
    ensures Raster(CsfStage(src, dst, scale, theta, w, h, px), s)[Pos(V(Angle(dst, theta), px), i, j)]
         == CsfValue(RFactor(scale, theta), s[Pos(V(Angle(src, theta), px), i, j)])
  {
    var st := CsfStage(src, dst, scale, theta, w, h, px);
    RasterValue(st, s, 0, i, j);
  }

  // ---------------------------------------------------------------------
  // adm_cm_thresh
  // ---------------------------------------------------------------------

  /** The row clear of adm_cm_thresh, `dst[i * dst_px_stride + j] = 0`, as a stage. */
  function ClearStage(dst: View, w: nat, h: nat): (st: Stage)
    ensures st.op == ZeroOp && st.rows == h && st.cols == w
  {
    Stage(ZeroOp, [], [dst], h, w)
  }

  /** Tap t of the 3 x 3 neighbourhood, in the loop order of filt_i then filt_j. */
  function TapRow(t: nat): (fi: nat)
    ensures fi < 3 && (t < 9 ==> 3 * fi <= t < 3 * fi + 3)
  {
    if t < 3 then 0 else if t < 6 then 1 else 2
  }

  function TapCol(t: nat): (fj: nat)
    requires t < 9
    ensures fj < 3 && 3 * TapRow(t) + fj == t
  {
    t - 3 * TapRow(t)
  }

  /** The position of tap (fi, fj) around (i, j): row i - 1 + fi, column j - 1 + fj, both reflected. */
  function NeighbourPos(v: View, w: nat, h: nat, i: nat, j: nat, fi: nat, fj: nat): (p: nat)
    requires i < h && j < w && fi < 3 && fj < 3
  {
    ThreshTapsInRange(h, i, fi);
    ThreshTapsInRange(w, j, fj);
    Pos(v, Reflect(i - 1 + fi, h), Reflect(j - 1 + fj, w))
  }

  lemma NeighbourInside(v: View, w: nat, h: nat, len: nat, i: nat, j: nat, fi: nat, fj: nat)
    requires i < h && j < w && fi < 3 && fj < 3 && Fits(v, h, w, len)
    ensures NeighbourPos(v, w, h, i, j, fi, fj) < len
  {
    ThreshTapsInRange(h, i, fi);
    ThreshTapsInRange(w, j, fj);
    PosInSpan(v, h, w, len, Reflect(i - 1 + fi, h), Reflect(j - 1 + fj, w));
  }

  /** One term `filt_coeff * img_coeff` of the threshold sum. */
  function ThreshTerm(s: seq<Int16>, v: View, w: nat, h: nat, i: nat, j: nat, fi: nat, fj: nat): int
    requires i < h && j < w && fi < 3 && fj < 3 && Fits(v, h, w, |s|)
  {
    NeighbourInside(v, w, h, |s|, i, j, fi, fj);
    CmFilterCoeff(fi, fj) * Abs(s[NeighbourPos(v, w, h, i, j, fi, fj)])
  }

  lemma ThreshTermIsZero(s: seq<Int16>, v: View, w: nat, h: nat, i: nat, j: nat, fi: nat, fj: nat)
    requires i < h && j < w && fi < 3 && fj < 3 && Fits(v, h, w, |s|)
    ensures ThreshTerm(s, v, w, h, i, j, fi, fj) == 0
  {
    CmFilterCoeffIsZero(fi, fj);
  }

  /** The first n terms of the threshold sum at (i, j). */
  function ThreshSum(s: seq<Int16>, v: View, w: nat, h: nat, i: nat, j: nat, n: nat): int
    requires i < h && j < w && n <= 9 && Fits(v, h, w, |s|)
  {
    if n == 0 then 0
    else ThreshSum(s, v, w, h, i, j, n - 1) + ThreshTerm(s, v, w, h, i, j, TapRow(n - 1), TapCol(n - 1))
  }

  /** Every threshold sum is zero: each filter weight is. */
  lemma {:induction false} ThreshSumIsZero(s: seq<Int16>, v: View, w: nat, h: nat, i: nat, j: nat, n: nat)
    requires i < h && j < w && n <= 9 && Fits(v, h, w, |s|)
    ensures ThreshSum(s, v, w, h, i, j, n) == 0
  {
    if n > 0 {
      ThreshSumIsZero(s, v, w, h, i, j, n - 1);
      ThreshTermIsZero(s, v, w, h, i, j, TapRow(n - 1), TapCol(n - 1));
    }
  }

  /** The 3 x 3 weighted sum of |src| around (i, j), with its loop over filt_i and filt_j. */
  method NeighbourSum(buf: array<Int16>, v: View, w: nat, h: nat, i: nat, j: nat) returns (sum: int)
    requires i < h && j < w && Fits(v, h, w, buf.Length)
    ensures sum == ThreshSum(buf[..], v, w, h, i, j, 9)
  {
    sum := 0;
    ghost var t := 0;
    var fi := 0;
    while fi < 3
      invariant 0 <= fi <= 3 && t == 3 * fi
      invariant sum == ThreshSum(buf[..], v, w, h, i, j, t)
    {
      var fj := 0;
      while fj < 3
        invariant 0 <= fj <= 3 && t == 3 * fi + fj
        invariant sum == ThreshSum(buf[..], v, w, h, i, j, t)
      {
        var term := NeighbourTerm(buf, v, w, h, i, j, fi, fj);
        assert TapRow(t) == fi && TapCol(t) == fj;
        sum := sum + term;
        t := t + 1;
        fj := fj + 1;
      }
      fi := fi + 1;
    }
  }

  /** One pass of the inner loop: `filt_coeff * FFABS(src[src_row + src_col])` at the reflected tap (fi, fj). */
  method NeighbourTerm(buf: array<Int16>, v: View, w: nat, h: nat, i: nat, j: nat, fi: nat, fj: nat) returns (term: int)
    requires i < h && j < w && fi < 3 && fj < 3 && Fits(v, h, w, buf.Length)
    ensures term == ThreshTerm(buf[..], v, w, h, i, j, fi, fj)
  {
    var coeff := CmFilterCoeff(fi, fj);
    ThreshTapsInRange(h, i, fi);
    ThreshTapsInRange(w, j, fj);
    var si := Reflect(i - 1 + fi, h);
    var sj := Reflect(j - 1 + fj, w);
    PosInSpan(v, h, w, buf.Length, si, sj);
    term := coeff * Abs(buf[Pos(v, si, sj)]);
  }

  /**
   * adm_cm_thresh: per row, clear the w threshold cells, then add to each
   * the three orientations' sums >> 15.  Since every sum is zero, the
   * additions store back what is there, and the stage is the clear alone.
   */
  method CmThresh(buf: array<Int16>, src: BandSet, dst: View, w: nat, h: nat, px: nat)
    requires forall theta :: 0 <= theta < 3 ==> Fits(V(Angle(src, theta), px), h, w, buf.Length)
    requires Fits(dst, h, w, buf.Length)
    modifies buf
    ensures buf[..] == Raster(ClearStage(dst, w, h), old(buf[..]))
  {
    ghost var s0 := buf[..];
    ghost var st := ClearStage(dst, w, h);
    var i := 0;
    while i < h
      invariant 0 <= i <= h
      invariant buf[..] == RasterRows(st, s0, i)
    {
      var j := 0;
      while j < w
        invariant 0 <= j <= w
        invariant buf[..] == RasterCols(st, RasterRows(st, s0, i), i, j)
      {
        PosInSpan(dst, h, w, buf.Length, i, j);
        ghost var before := buf[..];
        buf[Pos(dst, i, j)] := 0;
        assert WriteCell(before, [dst], i, j, [0]) == before[Pos(dst, i, j) := 0] by {
          assert [dst][..0] == [] && [0][..0] == [];
        }
        j := j + 1;
      }
      var theta := 0;
      while theta < 3
        invariant 0 <= theta <= 3
        invariant buf[..] == RasterRows(st, s0, i + 1)
      {
        ThreshAdd(buf, V(Angle(src, theta), px), dst, w, h, i);
        theta := theta + 1;
      }
      i := i + 1;
    }
  }

  /** One orientation of row i: `dst[i * dst_px_stride + j] += sum >> BIT_SHIFT` for every j; nothing changes. */
  method ThreshAdd(buf: array<Int16>, v: View, dst: View, w: nat, h: nat, i: nat)
    requires i < h && Fits(v, h, w, buf.Length) && Fits(dst, h, w, buf.Length)
    modifies buf
    ensures buf[..] == old(buf[..])
  {
    var j := 0;
    while j < w
      invariant 0 <= j <= w
      invariant buf[..] == old(buf[..])
    {
      var sum := NeighbourSum(buf, v, w, h, i, j);
      ThreshSumIsZero(buf[..], v, w, h, i, j, 9);
      PosInSpan(dst, h, w, buf.Length, i, j);
      buf[Pos(dst, i, j)] := ToInt16(buf[Pos(dst, i, j)] + Shr15(sum));
      j := j + 1;
    }
  }

  /** After the clear, every threshold cell of the w x h region is 0. */
  lemma ClearCell(dst: View, w: nat, h: nat, s: seq<Int16>, i: nat, j: nat)
    requires var st := ClearStage(dst, w, h); WellFormed(st, |s|) && DstsDistinct(st) && SrcsApart(st)
    requires i < h && j < w
    ensures Pos(dst, i, j) < |s| && Raster(ClearStage(dst, w, h), s)[Pos(dst, i, j)] == 0
  {
    var st := ClearStage(dst, w, h);
    RasterValue(st, s, 0, i, j);
  }

  // ---------------------------------------------------------------------
  // adm_cm
  // ---------------------------------------------------------------------

  /** adm_cm: reads h, v, d of src and the threshold; writes h, v, d of dst. */
  function CmStage(src: BandSet, dst: BandSet, thresh: View, w: nat, h: nat, px: nat): (st: Stage)
    ensures st.op == MaskOp && st.rows == h && st.cols == w
  {
    Stage(MaskOp, Details(src, px) + [thresh], Details(dst, px), h, w)
  }

  method Cm(buf: array<Int16>, src: BandSet, dst: BandSet, thresh: View, w: nat, h: nat, px: nat)
    requires WellFormed(CmStage(src, dst, thresh, w, h, px), buf.Length)
    modifies buf
    ensures buf[..] == Raster(CmStage(src, dst, thresh, w, h, px), old(buf[..]))
  {
    RunStage(buf, CmStage(src, dst, thresh, w, h, px));
  }

  /**
   * adm_cm with its outputs apart from each other and from its inputs:
   * orientation k of dst at (i, j) is max(0, |x| - thr) of orientation k of
   * src and the threshold at (i, j).
   */
  lemma CmCell(src: BandSet, dst: BandSet, thresh: View, w: nat, h: nat, px: nat, s: seq<Int16>, k: nat, i: nat, j: nat)
    requires var st := CmStage(src, dst, thresh, w, h, px); WellFormed(st, |s|) && DstsDistinct(st) && SrcsApart(st)
    requires k < 3 && i < h && j < w
    ensures Pos(Details(src, px)[k], i, j) < |s| && Pos(thresh, i, j) < |s| && Pos(Details(dst, px)[k], i, j) < |s|
    ensures Raster(CmStage(src, dst, thresh, w, h, px), s)[Pos(Details(dst, px)[k], i, j)]
         == CmValue(s[Pos(Details(src, px)[k], i, j)], s[Pos(thresh, i, j)])
  {
    var st := CmStage(src, dst, thresh, w, h, px);
    RasterValue(st, s, k, i, j);
    assert st.srcs[k] == Details(src, px)[k] && st.srcs[3] == thresh;
  }

  // ---------------------------------------------------------------------
  // adm_buffer_copy
  // ---------------------------------------------------------------------

  /** adm_buffer_copy of w int16 samples per row over h rows, as a stage. */
  function CopyStage(src: View, dst: View, w: nat, h: nat): (st: Stage)
    ensures st.op == CopyOp && st.rows == h && st.cols == w
  {
    Stage(CopyOp, [src], [dst], h, w)
  }

  /** `memcpy(dst_p, src_p, linewidth)` per row, as an element copy in increasing order. */
  method BufferCopy(buf: array<Int16>, src: View, dst: View, w: nat, h: nat)
    requires WellFormed(CopyStage(src, dst, w, h), buf.Length)
    modifies buf
    ensures buf[..] == Raster(CopyStage(src, dst, w, h), old(buf[..]))
  {
    RunStage(buf, CopyStage(src, dst, w, h));
  }

  /** With the two views apart, the copy leaves in cell (i, j) of dst the value of cell (i, j) of src. */
  lemma CopyCell(src: View, dst: View, w: nat, h: nat, s: seq<Int16>, i: nat, j: nat)
    requires var st := CopyStage(src, dst, w, h); WellFormed(st, |s|) && DstsDistinct(st) && SrcsApart(st)
    requires i < h && j < w
    ensures Pos(src, i, j) < |s| && Pos(dst, i, j) < |s|
    ensures Raster(CopyStage(src, dst, w, h), s)[Pos(dst, i, j)] == s[Pos(src, i, j)]
  {
    RasterValue(CopyStage(src, dst, w, h), s, 0, i, j);
  }

  /** The copy changes no index outside the w x h cells of dst. */
  lemma CopyFrame(src: View, dst: View, w: nat, h: nat, s: seq<Int16>, p: nat)
    requires WellFormed(CopyStage(src, dst, w, h), |s|) && p < |s|
    requires forall r: nat, c: nat :: r < h && c < w ==> Pos(dst, r, c) != p
    ensures Raster(CopyStage(src, dst, w, h), s)[p] == s[p]
  {
    var st := CopyStage(src, dst, w, h);
    forall r: nat, c: nat | r < h && c < w
      ensures NotCell(st.dsts, r, c, p)
    {
      assert st.dsts[0] == dst;
    }
    RasterFrame(st, s, p);
  }

  // ---------------------------------------------------------------------
  // adm_sum_cube
  // ---------------------------------------------------------------------

  /**
   * The sum of get_cube(|x|) over columns left .. n-1 of row i.  FFABS yields
   * an int, and passing it to get_cube's int16_t parameter turns |-32768|
   * back into -32768.
   */
  function RowCubes(s: seq<Int16>, v: View, i: nat, left: nat, n: nat): int
    requires left <= n && Pos(v, i, n) <= |s|
    decreases n - left
  {
    if n == left then 0 else RowCubes(s, v, i, left, n - 1) + GetCube(ToInt16(Abs(s[Pos(v, i, n - 1)])))
  }

  /** The sum over rows top .. m-1, columns left .. right-1. */
  function RegionCubes(s: seq<Int16>, v: View, top: nat, m: nat, left: nat, right: nat): int
    requires top <= m && left <= right && (m > top ==> Pos(v, m - 1, right) <= |s|)
    decreases m - top
  {
    if m == top then 0
    else
      RowEndsBefore(v, top, m - 1, m - 1, right);
      RegionCubes(s, v, top, m - 1, left, right) + RowCubes(s, v, m - 1, left, right)
  }

  /** Earlier rows end earlier. */
  lemma RowEndsBefore(v: View, top: nat, r: nat, m: nat, right: nat)
    requires r <= m
    ensures Pos(v, r, right) <= Pos(v, m, right)
  {
    MulMono(r, m, v.stride);
  }

  /** The border of adm_sum_cube: top, bottom, left, right for a w x h band. */
  function Border(w: nat, h: nat): (r: (nat, nat, nat, nat))
    ensures r.0 <= r.1 <= h && r.2 <= r.3 <= w
  {
    BorderBounds(w);
    BorderBounds(h);
    (BorderLow(h), h - BorderLow(h), BorderLow(w), w - BorderLow(w))
  }

  /** How many samples adm_sum_cube visits: (bottom - top) * (right - left). */
  function BorderArea(w: nat, h: nat): nat {
    var b := Border(w, h);
    MulMono(0, b.1 - b.0, b.3 - b.2);
    (b.1 - b.0) * (b.3 - b.2)
  }

  /** The region of a w x h band inside the border lies in the buffer when the band does. */
  lemma RegionFits(v: View, w: nat, h: nat, len: nat)
    requires Fits(v, h, w, len)
    ensures var b := Border(w, h); b.1 > b.0 && b.3 > b.2 ==> Pos(v, b.1 - 1, b.3) <= len
  {
    var b := Border(w, h);
    if b.1 > b.0 && b.3 > b.2 {
      PosInSpan(v, h, w, len, b.1 - 1, b.3 - 1);
    }
  }

  /** The sum of cubes inside the border. */
  function BorderCubes(s: seq<Int16>, v: View, w: nat, h: nat): int
    requires Fits(v, h, w, |s|)
  {
    var b := Border(w, h);
    RegionFits(v, w, h, |s|);
    if b.3 == b.2 then 0
    else RegionCubes(s, v, b.0, b.1, b.2, b.3)
  }

  /**
   * adm_sum_cube's result: ceil(cbrt(sum)) + ceil(cbrt(area / 32)),
   * converted to its int16_t return type.
   */
  function SumCubeValue(s: seq<Int16>, v: View, w: nat, h: nat): Int16
    requires Fits(v, h, w, |s|)
  {
    CubeRoots(BorderCubes(s, v, w, h), BorderArea(w, h))
  }

  /** `ceil(cbrt(sum)) + ceil(cbrt(area / 32.0))` as the int16_t adm_sum_cube returns. */
  function CubeRoots(sum: int, area: nat): Int16 {
    ToInt16(CeilCbrt(sum, 1) + CeilCbrt(area, 32))
  }

  /** adm_sum_cube: the border, the double loop over the region inside it, and the two cube roots. */
  method SumCube(buf: array<Int16>, v: View, w: nat, h: nat) returns (r: Int16, ghost visited: nat)
    requires Fits(v, h, w, buf.Length)
    ensures r == SumCubeValue(buf[..], v, w, h)
    ensures visited == BorderArea(w, h)
  {
    RegionFits(v, w, h, buf.Length);
    var b := Border(w, h);
    var top, bottom, left, right := b.0, b.1, b.2, b.3;
    var sum := 0;
    visited := 0;
    if left < right {
      sum, visited := RegionCubeSum(buf, v, top, bottom, left, right);
    }
    var area := (bottom - top) * (right - left);
    assert sum == BorderCubes(buf[..], v, w, h);
    assert visited == area == BorderArea(w, h);
    r := CubeRoots(sum, area);
  }

  /** The outer loop of adm_sum_cube, over rows top .. bottom-1. */
  method RegionCubeSum(buf: array<Int16>, v: View, top: nat, bottom: nat, left: nat, right: nat)
    returns (sum: int, ghost visited: nat)
    requires top <= bottom && left <= right && (bottom > top ==> Pos(v, bottom - 1, right) <= buf.Length)
    ensures sum == RegionCubes(buf[..], v, top, bottom, left, right)
    ensures visited == (bottom - top) * (right - left)
  {
    sum := 0;
    visited := 0;
    var i := top;
    while i < bottom
      invariant top <= i <= bottom
      invariant sum == RegionCubes(buf[..], v, top, i, left, right)
      invariant visited == (i - top) * (right - left)
    {
      RowEndsBefore(v, top, i, bottom - 1, right);
      var rowSum, n := RowCubeSum(buf, v, i, left, right);
      NextRowCount(i - top, right - left, visited);
      sum := sum + rowSum;
      visited := visited + n;
      i := i + 1;
    }
  }

  /** The inner loop of adm_sum_cube, over columns left .. right-1 of row i. */
  method RowCubeSum(buf: array<Int16>, v: View, i: nat, left: nat, right: nat) returns (rowSum: int, ghost visited: nat)
    requires left <= right && Pos(v, i, right) <= buf.Length
    ensures rowSum == RowCubes(buf[..], v, i, left, right)
    ensures visited == right - left
  {
    rowSum := 0;
    visited := 0;
    var j := left;
    while j < right
      invariant left <= j <= right
      invariant rowSum == RowCubes(buf[..], v, i, left, j)
      invariant visited == j - left
    {
      var x := buf[Pos(v, i, j)];
      rowSum := rowSum + GetCube(ToInt16(Abs(x)));
      visited := visited + 1;
      j := j + 1;
    }
  }

  lemma NextRowCount(k: nat, n: nat, base: nat)
    requires base == k * n
    ensures base + n == (k + 1) * n
  {
  }

  /** No sample of rows top .. m-1, columns left .. right-1 is -32768. */
  predicate NoMinSample(s: seq<Int16>, v: View, top: nat, m: nat, left: nat, right: nat) {
    forall r, c :: top <= r < m && left <= c < right ==> Pos(v, r, c) < |s| && s[Pos(v, r, c)] != -32768
  }

  /** Without a -32768 sample, every cube term is a cube of a magnitude and the sum is never negative. */
  lemma {:induction false} RowCubesNonneg(s: seq<Int16>, v: View, i: nat, left: nat, n: nat)
    requires left <= n && Pos(v, i, n) <= |s| && NoMinSample(s, v, i, i + 1, left, n)
    ensures RowCubes(s, v, i, left, n) >= 0
    decreases n - left
  {
    if n > left {
      assert NoMinSample(s, v, i, i + 1, left, n - 1);
      RowCubesNonneg(s, v, i, left, n - 1);
      CubeDominates(Abs(s[Pos(v, i, n - 1)]));
    }
  }

  lemma {:induction false} RegionCubesNonneg(s: seq<Int16>, v: View, top: nat, m: nat, left: nat, right: nat)
    requires top <= m && left <= right && (m > top ==> Pos(v, m - 1, right) <= |s|)
    requires NoMinSample(s, v, top, m, left, right)
    ensures RegionCubes(s, v, top, m, left, right) >= 0
    decreases m - top
  {
    if m > top {
      RowEndsBefore(v, top, m - 1, m - 1, right);
      if m - 1 > top {
        RowEndsBefore(v, top, m - 2, m - 1, right);
      }
      assert NoMinSample(s, v, top, m - 1, left, right);
      assert NoMinSample(s, v, m - 1, m, left, right);
      RegionCubesNonneg(s, v, top, m - 1, left, right);
      RowCubesNonneg(s, v, m - 1, left, right);
    }
  }

  /** Without a -32768 sample, a row's partial sums grow with every column added. */
  lemma {:induction false} RowCubesPrefix(s: seq<Int16>, v: View, i: nat, left: nat, k: nat, n: nat)
    requires left <= k <= n && Pos(v, i, n) <= |s| && NoMinSample(s, v, i, i + 1, left, n)
    ensures 0 <= RowCubes(s, v, i, left, k) <= RowCubes(s, v, i, left, n)
    decreases n - k
  {
    if k < n {
      assert NoMinSample(s, v, i, i + 1, left, n - 1);
      RowCubesPrefix(s, v, i, left, k, n - 1);
      CubeDominates(Abs(s[Pos(v, i, n - 1)]));
    } else {
      RowCubesNonneg(s, v, i, left, n);
    }
  }

  /** Without a -32768 sample, the sum over the first rows grows with every row added. */
  lemma {:induction false} RegionCubesPrefix(s: seq<Int16>, v: View, top: nat, r: nat, m: nat, left: nat, right: nat)
    requires top <= r <= m && left <= right && (m > top ==> Pos(v, m - 1, right) <= |s|)
    requires NoMinSample(s, v, top, m, left, right)
    ensures r > top ==> Pos(v, r - 1, right) <= |s|
    ensures 0 <= RegionCubes(s, v, top, r, left, right) <= RegionCubes(s, v, top, m, left, right)
    decreases m - r
  {
    if r > top {
      RowEndsBefore(v, top, r - 1, m - 1, right);
    }
    if r < m {
      if m - 1 > top {
        RowEndsBefore(v, top, m - 2, m - 1, right);
      }
      assert NoMinSample(s, v, top, m - 1, left, right);
      assert NoMinSample(s, v, m - 1, m, left, right);
      RegionCubesPrefix(s, v, top, r, m - 1, left, right);
      RowCubesNonneg(s, v, m - 1, left, right);
    } else {
      RegionCubesNonneg(s, v, top, m, left, right);
    }
  }

  /** The running sum after column c of row r lies between 0 and the sum over rows top .. m-1. */
  lemma RegionRunningSum(s: seq<Int16>, v: View, top: nat, m: nat, left: nat, right: nat, r: nat, c: nat)
    requires top <= r < m && left <= c <= right && Pos(v, m - 1, right) <= |s|
    requires NoMinSample(s, v, top, m, left, right)
    ensures Pos(v, r, right) <= |s|
    ensures 0 <= RegionCubes(s, v, top, r, left, right) + RowCubes(s, v, r, left, c) <= RegionCubes(s, v, top, m, left, right)
  {
    RegionCubesPrefix(s, v, top, r + 1, m, left, right);
    RegionCubesPrefix(s, v, top, r, m, left, right);
    assert NoMinSample(s, v, r, r + 1, left, right);
    RowCubesPrefix(s, v, r, left, c, right);
  }

  /**
   * adm_sum_cube's running sum after column c of row r (the cubes of rows
   * top .. r-1 and of columns left .. c-1 of row r) lies between 0 and the
   * final sum when no sample inside the border is -32768.  So a final sum
   * below 2^31 means no partial sum or cube term overflows `int`.
   */
  lemma SumCubeRunningSum(s: seq<Int16>, v: View, w: nat, h: nat, r: nat, c: nat)
    requires Fits(v, h, w, |s|) && w >= 1
    requires var b := Border(w, h); NoMinSample(s, v, b.0, b.1, b.2, b.3) && b.0 <= r < b.1 && b.2 <= c <= b.3
    ensures var b := Border(w, h);
      Pos(v, r, b.3) <= |s|
      && 0 <= RegionCubes(s, v, b.0, r, b.2, b.3) + RowCubes(s, v, r, b.2, c) <= BorderCubes(s, v, w, h)
  {
    var b := Border(w, h);
    BorderBounds(w);
    RegionFits(v, w, h, |s|);
    RegionRunningSum(s, v, b.0, b.1, b.2, b.3, r, c);
  }

  /** A -32768 sample stays -32768 through FFABS and the int16_t parameter; its mathematical cube, -2^45, overflows `int`. */
  lemma MinSampleCube()
    ensures GetCube(ToInt16(Abs(-32768))) == -0x2000_0000_0000
  {
  }

  /** ceil(cbrt(sum)) of a sum in [0, 2^31) lies in [0, 1291]. */
  lemma CbrtOfSumBounds(sum: int)
    requires 0 <= sum < 0x8000_0000
    ensures 0 <= CeilCbrt(sum, 1) <= 1291
  {
    var c := CeilCbrt(sum, 1);
    if c < 0 { CubeMonotone(c, -1); }
    if c > 1291 { CubeMonotone(1291, c - 1); }
  }

  /** ceil(cbrt(area / 32)) of an area in [1, 2^31) lies in [1, 407]. */
  lemma CbrtOfAreaBounds(area: int)
    requires 1 <= area < 0x8000_0000
    ensures 1 <= CeilCbrt(area, 32) <= 407
  {
    var c := CeilCbrt(area, 32);
    if c <= 0 { CubeMonotone(c, 0); }
    if c > 407 { CubeMonotone(407, c - 1); }
  }

  /** While the cube sum stays inside [0, 2^31), adm_sum_cube returns a value in [1, 1698] with no int16 wrap. */
  lemma SumCubeInRange(s: seq<Int16>, v: View, w: nat, h: nat)
    requires Fits(v, h, w, |s|) && w >= 1 && h >= 1
    requires 0 <= BorderCubes(s, v, w, h) < 0x8000_0000 && BorderArea(w, h) < 0x8000_0000
    ensures 1 <= SumCubeValue(s, v, w, h) <= 1698
    ensures SumCubeValue(s, v, w, h) == CeilCbrt(BorderCubes(s, v, w, h), 1) + CeilCbrt(BorderArea(w, h), 32)
  {
    var b := Border(w, h);
    BorderBounds(w);
    BorderBounds(h);
    MulMono(1, b.1 - b.0, b.3 - b.2);
    CbrtOfSumBounds(BorderCubes(s, v, w, h));
    CbrtOfAreaBounds(BorderArea(w, h));
  }

  /** Without a -32768 sample inside the border, the cube sum is never negative. */
  lemma BorderCubesNonneg(s: seq<Int16>, v: View, w: nat, h: nat)
    requires Fits(v, h, w, |s|)
    requires var b := Border(w, h); NoMinSample(s, v, b.0, b.1, b.2, b.3)
    ensures BorderCubes(s, v, w, h) >= 0
  {
    var b := Border(w, h);
    RegionFits(v, w, h, |s|);
    if b.3 > b.2 {
      RegionCubesNonneg(s, v, b.0, b.1, b.2, b.3);
    }
  }
}
