/**
 * Views into the int16 arena and the raster walk shared by adm_decouple,
 * adm_csf, adm_cm and adm_buffer_copy: for every row i < rows and column
 * j < cols, read one cell of each source view, compute, and store one value
 * into each destination view, in that order.  The walk is specified as the
 * sequence of single-cell stores the C loops perform, so it stays exact even
 * when views overlap; RasterFrame and RasterValue give its meaning when they
 * do not.
 */
module AdmGrid {
  import opened AdmArith
  import opened AdmPixel

  /** A 2-D window of the arena: element offset of row 0 and row stride in elements. */
  datatype View = View(off: nat, stride: nat)

  /** Index of cell (i, j): `ptr[i * px_stride + j]`. */
  function Pos(v: View, i: nat, j: nat): nat { v.off + i * v.stride + j }

  /** The rows x cols cells of v index a buffer of length len. */
  predicate Fits(v: View, rows: nat, cols: nat, len: nat) {
    rows == 0 || cols == 0 || Pos(v, rows - 1, cols - 1) < len
  }

  lemma PosInSpan(v: View, rows: nat, cols: nat, len: nat, i: nat, j: nat)
    requires Fits(v, rows, cols, len) && i < rows && j < cols
    ensures Pos(v, i, j) < len
  {
    MulMono(i, rows - 1, v.stride);
  }

  /** Within a row of at most `stride` columns, distinct cells have distinct indices. */
  lemma PosInjective(v: View, i1: nat, j1: nat, i2: nat, j2: nat)
    requires j1 < v.stride && j2 < v.stride && (i1 != i2 || j1 != j2)
    ensures Pos(v, i1, j1) != Pos(v, i2, j2)
  {
    if i1 < i2 {
      MulMono(i1 + 1, i2, v.stride);
    } else if i2 < i1 {
      MulMono(i2 + 1, i1, v.stride);
    }
  }

  /** adm_dwt_band_t: element offsets of the approximation band and the three detail bands. */
  datatype BandSet = BandSet(a: nat, v: nat, h: nat, d: nat)

  /** Orientation theta of the angle tables { band_h, band_v, band_d } of adm_csf and adm_cm_thresh. */
  function Angle(b: BandSet, theta: nat): nat
    requires theta < 3
  {
    if theta == 0 then b.h else if theta == 1 then b.v else b.d
  }

  /** The per-cell computation of each cell-local stage. */
  datatype CellOp =
    | CsfOp(factor: int)   // adm_csf, one orientation
    | CopyOp               // adm_buffer_copy
    | DecoupleOp           // adm_decouple
    | MaskOp               // adm_cm
    | ZeroOp               // the row clear of adm_cm_thresh

  function SrcCount(op: CellOp): nat {
    match op
    case CsfOp(_) => 1
    case CopyOp => 1
    case DecoupleOp => 6
    case MaskOp => 4
    case ZeroOp => 0
  }

  function DstCount(op: CellOp): nat {
    match op
    case CsfOp(_) => 1
    case CopyOp => 1
    case DecoupleOp => 6
    case MaskOp => 3
    case ZeroOp => 1
  }

  predicate ValidOp(op: CellOp) {
    op.CsfOp? ==> 0 <= op.factor < Q15
  }

  /**
   * The values one cell stores, from the values it read:
   * CSF [x] -> [(f * x) >> 15]; copy [x] -> [x];
   * decouple [oh, ov, od, th, tv, td] -> [rh, rv, rd, ah, av, ad];
   * masking [xh, xv, xd, thr] -> [max(0, |xh| - thr), ...]; clear [] -> [0].
   */
  function CellValues(op: CellOp, xs: seq<Int16>): (r: seq<Int16>)
    requires ValidOp(op) && |xs| == SrcCount(op)
    ensures |r| == DstCount(op)
  {
    match op
    case CsfOp(f) => [CsfValue(f, xs[0])]
    case CopyOp => [xs[0]]
    case DecoupleOp => DecouplePixel(xs)
    case MaskOp => [CmValue(xs[0], xs[3]), CmValue(xs[1], xs[3]), CmValue(xs[2], xs[3])]
    case ZeroOp => [0]
  }

  /** One call of a cell-local stage: what it computes, where it reads, where it writes, how far. */
  datatype Stage = Stage(op: CellOp, srcs: seq<View>, dsts: seq<View>, rows: nat, cols: nat)

  predicate AllFit(vs: seq<View>, rows: nat, cols: nat, len: nat) {
    forall k :: 0 <= k < |vs| ==> Fits(vs[k], rows, cols, len)
  }

  /** Every access of the stage stays inside a buffer of length len. */
  predicate WellFormed(st: Stage, len: nat) {
    && ValidOp(st.op)
    && |st.srcs| == SrcCount(st.op) && |st.dsts| == DstCount(st.op)
    && AllFit(st.srcs, st.rows, st.cols, len) && AllFit(st.dsts, st.rows, st.cols, len)
  }

  /** The cells (i, j) of views vs index a buffer of length len. */
  predicate CellInside(vs: seq<View>, i: nat, j: nat, len: nat) {
    forall k :: 0 <= k < |vs| ==> Pos(vs[k], i, j) < len
  }

  lemma InsideOfFit(vs: seq<View>, rows: nat, cols: nat, len: nat, i: nat, j: nat)
    requires AllFit(vs, rows, cols, len) && i < rows && j < cols
    ensures CellInside(vs, i, j, len)
  {
    forall k | 0 <= k < |vs|
      ensures Pos(vs[k], i, j) < len
    {
      PosInSpan(vs[k], rows, cols, len, i, j);
    }
  }

  /** The values of cell (i, j) of each view, in view order. */
  function Reads(vs: seq<View>, s: seq<Int16>, i: nat, j: nat): (r: seq<Int16>)
    requires CellInside(vs, i, j, |s|)
    ensures |r| == |vs|
  {
    seq(|vs|, k requires 0 <= k < |vs| => s[Pos(vs[k], i, j)])
  }

  /** Stores vals[0], vals[1], ... into cells (i, j) of vs[0], vs[1], ..., one after the other. */
  function WriteCell(s: seq<Int16>, vs: seq<View>, i: nat, j: nat, vals: seq<Int16>): (r: seq<Int16>)
    requires CellInside(vs, i, j, |s|) && |vals| == |vs|
    ensures |r| == |s|
    decreases |vs|
  {
    if |vs| == 0 then s
    else
      var n := |vs| - 1;
      WriteCell(s, vs[..n], i, j, vals[..n])[Pos(vs[n], i, j) := vals[n]]
  }

  /** Stores vs[0], ..., vs[n-1] at indices ps[0], ..., ps[n-1], one after the other. */
  function Scatter(s: seq<Int16>, ps: seq<nat>, vs: seq<Int16>, n: nat): (r: seq<Int16>)
    requires n <= |ps| && n <= |vs| && forall k :: 0 <= k < n ==> ps[k] < |s|
    ensures |r| == |s|
  {
    if n == 0 then s else Scatter(s, ps, vs, n - 1)[ps[n - 1] := vs[n - 1]]
  }

  /** Cell (i, j) of the stage: read every source, then store every result. */
  function ApplyCell(st: Stage, s: seq<Int16>, i: nat, j: nat): (r: seq<Int16>)
    requires WellFormed(st, |s|) && i < st.rows && j < st.cols
    ensures |r| == |s|
  {
    InsideOfFit(st.srcs, st.rows, st.cols, |s|, i, j);
    InsideOfFit(st.dsts, st.rows, st.cols, |s|, i, j);
    WriteCell(s, st.dsts, i, j, CellValues(st.op, Reads(st.srcs, s, i, j)))
  }

  /** Row i, columns 0 .. n-1, in order. */
  function RasterCols(st: Stage, s: seq<Int16>, i: nat, n: nat): (r: seq<Int16>)
    requires WellFormed(st, |s|) && i < st.rows && n <= st.cols
    ensures |r| == |s|
  {
    if n == 0 then s else ApplyCell(st, RasterCols(st, s, i, n - 1), i, n - 1)
  }

  /** Rows 0 .. m-1, in order. */
  function RasterRows(st: Stage, s: seq<Int16>, m: nat): (r: seq<Int16>)
    requires WellFormed(st, |s|) && m <= st.rows
    ensures |r| == |s|
  {
    if m == 0 then s else RasterCols(st, RasterRows(st, s, m - 1), m - 1, st.cols)
  }

  /** The arena after the whole stage. */
  function Raster(st: Stage, s: seq<Int16>): (r: seq<Int16>)
    requires WellFormed(st, |s|)
    ensures |r| == |s|
  {
    RasterRows(st, s, st.rows)
  }

  // ---------------------------------------------------------------------
  // Executing a stage
  // ---------------------------------------------------------------------

  /**
   * The double loop of a cell-local stage over the arena: per cell, load the
   * sources into locals, compute, then store the destinations in order.
   */
  method RunStage(buf: array<Int16>, st: Stage)
    requires WellFormed(st, buf.Length)
    modifies buf
    ensures buf[..] == Raster(st, old(buf[..]))
  {
    ghost var s0 := buf[..];
    var i := 0;
    while i < st.rows
      invariant 0 <= i <= st.rows
      invariant buf[..] == RasterRows(st, s0, i)
    {
      var j := 0;
      while j < st.cols
        invariant 0 <= j <= st.cols
        invariant buf[..] == RasterCols(st, RasterRows(st, s0, i), i, j)
      {
        InsideOfFit(st.srcs, st.rows, st.cols, buf.Length, i, j);
        InsideOfFit(st.dsts, st.rows, st.cols, buf.Length, i, j);
        var xs := LoadCell(buf, st.srcs, i, j);
        StoreCell(buf, st.dsts, i, j, CellValues(st.op, xs));
        j := j + 1;
      }
      i := i + 1;
    }
  }

  /** The loads of one cell. */
  method LoadCell(buf: array<Int16>, vs: seq<View>, i: nat, j: nat) returns (xs: seq<Int16>)
    requires CellInside(vs, i, j, buf.Length)
    ensures xs == Reads(vs, buf[..], i, j)
  {
    xs := seq(|vs|, k requires 0 <= k < |vs| reads buf => buf[Pos(vs[k], i, j)]);
  }

  /** The stores of one cell, in view order. */
  method StoreCell(buf: array<Int16>, vs: seq<View>, i: nat, j: nat, vals: seq<Int16>)
    requires CellInside(vs, i, j, buf.Length) && |vals| == |vs|
    modifies buf
    ensures buf[..] == WriteCell(old(buf[..]), vs, i, j, vals)
  {
    ghost var before := buf[..];
    var k := 0;
    while k < |vs|
      invariant 0 <= k <= |vs|
      invariant buf[..] == WriteCell(before, vs[..k], i, j, vals[..k])
    {
      buf[Pos(vs[k], i, j)] := vals[k];
      assert vs[..k + 1][..k] == vs[..k];
      assert vals[..k + 1][..k] == vals[..k];
      k := k + 1;
    }
    assert vs[..k] == vs && vals[..k] == vals;
  }

  // ---------------------------------------------------------------------
  // Frames and values
  // ---------------------------------------------------------------------

  /** Index p is none of the cells (i, j) of vs. */
  predicate NotCell(vs: seq<View>, i: nat, j: nat, p: nat) {
    forall k :: 0 <= k < |vs| ==> Pos(vs[k], i, j) != p
  }

  /** The cells (i, j) of vs are pairwise distinct. */
  predicate CellsDistinct(vs: seq<View>, i: nat, j: nat) {
    forall k1, k2 :: 0 <= k1 < k2 < |vs| ==> Pos(vs[k1], i, j) != Pos(vs[k2], i, j)
  }

  lemma {:induction false} WriteCellFrame(s: seq<Int16>, vs: seq<View>, i: nat, j: nat, vals: seq<Int16>, p: nat)
    requires CellInside(vs, i, j, |s|) && |vals| == |vs|
    requires p < |s| && NotCell(vs, i, j, p)
    ensures WriteCell(s, vs, i, j, vals)[p] == s[p]
    decreases |vs|
  {
    if |vs| > 0 {
      var n := |vs| - 1;
      assert Pos(vs[n], i, j) != p;
      WriteCellFrame(s, vs[..n], i, j, vals[..n], p);
    }
  }

  lemma {:induction false} WriteCellValue(s: seq<Int16>, vs: seq<View>, i: nat, j: nat, vals: seq<Int16>, k: nat)
    requires CellInside(vs, i, j, |s|) && |vals| == |vs|
    requires CellsDistinct(vs, i, j) && k < |vs|
    ensures WriteCell(s, vs, i, j, vals)[Pos(vs[k], i, j)] == vals[k]
    decreases |vs|
  {
    var n := |vs| - 1;
    if k < n {
      assert Pos(vs[k], i, j) != Pos(vs[n], i, j);
      assert vs[..n][k] == vs[k];
      WriteCellValue(s, vs[..n], i, j, vals[..n], k);
    }
  }

  /** A scatter leaves every index it does not store to as it was. */
  lemma {:induction false} ScatterFrame(s: seq<Int16>, ps: seq<nat>, vs: seq<Int16>, n: nat, p: nat)
    requires n <= |ps| && n <= |vs| && forall k :: 0 <= k < n ==> ps[k] < |s|
    requires p < |s| && forall k :: 0 <= k < n ==> ps[k] != p
    ensures Scatter(s, ps, vs, n)[p] == s[p]
  {
    if n > 0 {
      ScatterFrame(s, ps, vs, n - 1, p);
    }
  }

  /** The last store to an index decides its value. */
  lemma {:induction false} ScatterValue(s: seq<Int16>, ps: seq<nat>, vs: seq<Int16>, n: nat, k: nat)
    requires n <= |ps| && n <= |vs| && forall q :: 0 <= q < n ==> ps[q] < |s|
    requires k < n && forall q :: k < q < n ==> ps[q] != ps[k]
    ensures Scatter(s, ps, vs, n)[ps[k]] == vs[k]
  {
    if k < n - 1 {
      ScatterValue(s, ps, vs, n - 1, k);
    }
  }

  /** Columns a .. n-1 of row i leave index p alone when p is none of their destination cells. */
  lemma {:induction false} ColsFrameFrom(st: Stage, s: seq<Int16>, i: nat, a: nat, n: nat, p: nat)
    requires WellFormed(st, |s|) && i < st.rows && a <= n <= st.cols && p < |s|
    requires forall c :: a <= c < n ==> NotCell(st.dsts, i, c, p)
    ensures RasterCols(st, s, i, n)[p] == RasterCols(st, s, i, a)[p]
    decreases n
  {
    if a < n {
      ColsFrameFrom(st, s, i, a, n - 1, p);
      ApplyCellFrame(st, RasterCols(st, s, i, n - 1), i, n - 1, p);
    }
  }

  /** One cell leaves index p alone when p is none of its destination cells. */
  lemma ApplyCellFrame(st: Stage, t: seq<Int16>, i: nat, j: nat, p: nat)
    requires WellFormed(st, |t|) && i < st.rows && j < st.cols && p < |t|
    requires NotCell(st.dsts, i, j, p)
    ensures ApplyCell(st, t, i, j)[p] == t[p]
  {
    InsideOfFit(st.srcs, st.rows, st.cols, |t|, i, j);
    InsideOfFit(st.dsts, st.rows, st.cols, |t|, i, j);
    WriteCellFrame(t, st.dsts, i, j, CellValues(st.op, Reads(st.srcs, t, i, j)), p);
  }

  /** Rows a .. m-1 leave index p alone when p is none of their destination cells. */
  lemma {:induction false} RowsFrameFrom(st: Stage, s: seq<Int16>, a: nat, m: nat, p: nat)
    requires WellFormed(st, |s|) && a <= m <= st.rows && p < |s|
    requires forall r: nat, c: nat :: a <= r < m && c < st.cols ==> NotCell(st.dsts, r, c, p)
    ensures RasterRows(st, s, m)[p] == RasterRows(st, s, a)[p]
    decreases m
  {
    if a < m {
      var r := m - 1;
      RowsFrameFrom(st, s, a, r, p);
      assert forall c :: 0 <= c < st.cols ==> NotCell(st.dsts, r, c, p);
      var t := RasterRows(st, s, r);
      ColsFrameFrom(st, t, r, 0, st.cols, p);
    }
  }

  /** A stage changes no index outside the rows x cols cells of its destination views. */
  lemma RasterFrame(st: Stage, s: seq<Int16>, p: nat)
    requires WellFormed(st, |s|) && p < |s|
    requires forall r: nat, c: nat :: r < st.rows && c < st.cols ==> NotCell(st.dsts, r, c, p)
    ensures Raster(st, s)[p] == s[p]
  {
    RowsFrameFrom(st, s, 0, st.rows, p);
  }

  /** No two destination cells of the stage coincide. */
  ghost predicate DstsDistinct(st: Stage) {
    forall k1: nat, k2: nat, i1: nat, j1: nat, i2: nat, j2: nat ::
      k1 < |st.dsts| && k2 < |st.dsts| && i1 < st.rows && i2 < st.rows &&
      j1 < st.cols && j2 < st.cols && (k1 != k2 || i1 != i2 || j1 != j2) ==>
      Pos(st.dsts[k1], i1, j1) != Pos(st.dsts[k2], i2, j2)
  }

  /** No source cell of the stage is a destination cell. */
  ghost predicate SrcsApart(st: Stage) {
    forall k1: nat, k2: nat, i1: nat, j1: nat, i2: nat, j2: nat ::
      k1 < |st.srcs| && k2 < |st.dsts| && i1 < st.rows && i2 < st.rows &&
      j1 < st.cols && j2 < st.cols ==>
      Pos(st.srcs[k1], i1, j1) != Pos(st.dsts[k2], i2, j2)
  }

  /** Before cell (i, j) is processed, its source cells still hold their original values. */
  lemma SourcesIntact(st: Stage, s: seq<Int16>, i: nat, j: nat)
    requires WellFormed(st, |s|) && SrcsApart(st) && i < st.rows && j < st.cols
    ensures CellInside(st.srcs, i, j, |s|)
    ensures Reads(st.srcs, RasterCols(st, RasterRows(st, s, i), i, j), i, j) == Reads(st.srcs, s, i, j)
  {
    InsideOfFit(st.srcs, st.rows, st.cols, |s|, i, j);
    var v0 := RasterRows(st, s, i);
    var v1 := RasterCols(st, v0, i, j);
    forall q | 0 <= q < |st.srcs|
      ensures v1[Pos(st.srcs[q], i, j)] == s[Pos(st.srcs[q], i, j)]
    {
      var x := Pos(st.srcs[q], i, j);
      ColsFrameFrom(st, v0, i, 0, j, x);
      RowsFrameFrom(st, s, 0, i, x);
    }
  }

  /** No destination cell after (i, j) in raster order is cell (i, j) of destination k. */
  lemma LaterCellsMiss(st: Stage, k: nat, i: nat, j: nat)
    requires DstsDistinct(st) && k < |st.dsts| && i < st.rows && j < st.cols
    ensures forall c :: j + 1 <= c < st.cols ==> NotCell(st.dsts, i, c, Pos(st.dsts[k], i, j))
    ensures forall r: nat, c: nat :: i + 1 <= r < st.rows && c < st.cols ==> NotCell(st.dsts, r, c, Pos(st.dsts[k], i, j))
    ensures CellsDistinct(st.dsts, i, j)
  {
  }

  /** Cell (i, j) of the stage stores the values computed from the original sources at (i, j). */
  lemma CellStores(st: Stage, s: seq<Int16>, k: nat, i: nat, j: nat)
    requires WellFormed(st, |s|) && DstsDistinct(st) && SrcsApart(st)
    requires k < |st.dsts| && i < st.rows && j < st.cols
    ensures CellInside(st.srcs, i, j, |s|) && Pos(st.dsts[k], i, j) < |s|
    ensures RasterCols(st, RasterRows(st, s, i), i, j + 1)[Pos(st.dsts[k], i, j)]
         == CellValues(st.op, Reads(st.srcs, s, i, j))[k]
  {
    InsideOfFit(st.dsts, st.rows, st.cols, |s|, i, j);
    SourcesIntact(st, s, i, j);
    LaterCellsMiss(st, k, i, j);
    var v1 := RasterCols(st, RasterRows(st, s, i), i, j);
    WriteCellValue(v1, st.dsts, i, j, CellValues(st.op, Reads(st.srcs, v1, i, j)), k);
  }

  /** The cells after (i, j) in raster order leave index p alone when p is none of their destinations. */
  lemma AfterCellFrame(st: Stage, s: seq<Int16>, i: nat, j: nat, p: nat)
    requires WellFormed(st, |s|) && i < st.rows && j < st.cols && p < |s|
    requires forall c :: j + 1 <= c < st.cols ==> NotCell(st.dsts, i, c, p)
    requires forall r: nat, c: nat :: i + 1 <= r < st.rows && c < st.cols ==> NotCell(st.dsts, r, c, p)
    ensures Raster(st, s)[p] == RasterCols(st, RasterRows(st, s, i), i, j + 1)[p]
  {
    var v0 := RasterRows(st, s, i);
    ColsFrameFrom(st, v0, i, j + 1, st.cols, p);
    RowsFrameFrom(st, s, i + 1, st.rows, p);
    assert RasterRows(st, s, i + 1)[p] == RasterCols(st, v0, i, st.cols)[p];
  }

  /**
   * When destinations are pairwise distinct and apart from the sources, the
   * stage leaves in cell (i, j) of destination k the k-th value computed from
   * the ORIGINAL sources at (i, j).
   */
  lemma RasterValue(st: Stage, s: seq<Int16>, k: nat, i: nat, j: nat)
    requires WellFormed(st, |s|) && DstsDistinct(st) && SrcsApart(st)
    requires k < |st.dsts| && i < st.rows && j < st.cols
    ensures CellInside(st.srcs, i, j, |s|) && Pos(st.dsts[k], i, j) < |s|
    ensures Raster(st, s)[Pos(st.dsts[k], i, j)] == CellValues(st.op, Reads(st.srcs, s, i, j))[k]
  {
    CellStores(st, s, k, i, j);
    LaterCellsMiss(st, k, i, j);
    AfterCellFrame(st, s, i, j, Pos(st.dsts[k], i, j));
  }
}
