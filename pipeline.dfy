/**
 * ff_adm_process: the arena carved out of data_buf, the four-scale loop
 * (wavelet transforms of ref and main, decouple, csf, contrast masking, the
 * six sums of cubes, the hand-off of the two approximation bands), the noise
 * floor and the final num / den ratio.
 *
 * W and H are s->width and s->height.  Tile k of the arena is the view
 * TileView(k, TileLen(W, H), PxStride(W)): (H + 1) / 2 rows of PxStride(W)
 * elements, the tile order being that of the carving (0 ref_scale,
 * 1 main_scale, 2-5 ref_dwt2, 6-9 main_dwt2, 10-13 decouple_r, 14-17
 * decouple_a, 18-21 csf_o, 22-25 csf_r, 26-29 csf_a, 30 mta, 31-34 cm_r,
 * each band set as a, h, v, d).
 */
module AdmPipeline {
  import opened AdmArith
  import opened AdmPixel
  import opened AdmGrid
  import opened AdmWavelet
  import opened AdmLayout
  import opened AdmStages

  /** The number of scales of the loop of ff_adm_process. */
  const Scales: nat := 4

  /** The luma plane of an AVFrame: data[0] as bytes and linesize[0]. */
  datatype Frame = Frame(data: seq<Byte>, linesize: nat)

  // ---------------------------------------------------------------------
  // Geometry
  // ---------------------------------------------------------------------

  /** What the pipeline needs of the frame size and of data_buf: w, h >= 2 and buf_sz * 35 bytes. */
  predicate ArenaShape(W: nat, H: nat, len: nat) {
    W >= 2 && H >= 2 && len == ArenaLen(W, H)
  }

  /** The carved layout of a W x H arena. */
  function Lay(W: nat, H: nat): Layout { Arena(TileLen(W, H)) }

  /** Tile k of the arena. */
  function Tile(k: nat, W: nat, H: nat): View { TileView(k, TileLen(W, H), PxStride(W)) }

  /** n after k ceiling halvings `n = (n + 1) / 2`: the band size of scale k - 1. */
  function Dim(n: nat, k: nat): (r: nat)
    ensures r <= n
    ensures n >= 1 ==> r >= 1
    ensures k >= 1 ==> r <= (n + 1) / 2
  {
    if k == 0 then n else (Dim(n, k - 1) + 1) / 2
  }

  /** Every band of every scale fits a tile: at most (H + 1) / 2 rows and PxStride(W) columns. */
  lemma ScaleFitsTile(W: nat, H: nat, scale: nat)
    requires W >= 2 && H >= 2
    ensures 1 <= Dim(W, scale + 1) <= PxStride(W)
    ensures 1 <= Dim(H, scale + 1) <= (H + 1) / 2
  {
  }

  /** The offsets of the carved views are the tiles. */
  lemma LayTiles(W: nat, H: nat)
    ensures var lay, sz, px := Lay(W, H), TileLen(W, H), PxStride(W);
      && Details(lay.refDwt, px) == TileViews([3, 4, 5], sz, px)
      && Details(lay.mainDwt, px) == TileViews([7, 8, 9], sz, px)
      && Details(lay.decoupleR, px) == TileViews([11, 12, 13], sz, px)
      && Details(lay.decoupleA, px) == TileViews([15, 16, 17], sz, px)
      && Details(lay.csfO, px) == TileViews([19, 20, 21], sz, px)
      && Details(lay.csfR, px) == TileViews([23, 24, 25], sz, px)
      && Details(lay.csfA, px) == TileViews([27, 28, 29], sz, px)
      && Details(lay.cmR, px) == TileViews([32, 33, 34], sz, px)
      && V(lay.mta, px) == Tile(30, W, H)
      && V(lay.refScale, px) == Tile(0, W, H) && V(lay.mainScale, px) == Tile(1, W, H)
      && V(lay.refDwt.a, px) == Tile(2, W, H) && V(lay.mainDwt.a, px) == Tile(6, W, H)
      && V(lay.decoupleR.a, px) == Tile(10, W, H) && V(lay.decoupleA.a, px) == Tile(14, W, H)
  {
  }

  /** The angle views of the band set carved from tile k: h, v, d in tiles k + 1, k + 2, k + 3. */
  lemma BandsAngle(k: nat, sz: nat, px: nat, theta: nat)
    requires theta < 3
    ensures V(Angle(Bands(k, sz), theta), px) == TileView(k + 1 + theta, sz, px)
  {
  }

  lemma TileViewsConcat(ks1: seq<nat>, ks2: seq<nat>, sz: nat, px: nat)
    ensures TileViews(ks1, sz, px) + TileViews(ks2, sz, px) == TileViews(ks1 + ks2, sz, px)
  {
  }

  /**
   * A cell-local stage of one scale over arena tiles: it fits the arena, its
   * destination cells are distinct and none of them is a source cell.
   */
  lemma TiledScaleStage(st: Stage, srcK: seq<nat>, dstK: seq<nat>, W: nat, H: nat, scale: nat)
    requires W >= 2 && H >= 2
    requires ValidOp(st.op) && |st.srcs| == SrcCount(st.op) && |st.dsts| == DstCount(st.op)
    requires st.srcs == TileViews(srcK, TileLen(W, H), PxStride(W)) && st.dsts == TileViews(dstK, TileLen(W, H), PxStride(W))
    requires st.rows == Dim(H, scale + 1) && st.cols == Dim(W, scale + 1)
    requires forall q :: 0 <= q < |srcK| ==> srcK[q] < 35
    requires forall q :: 0 <= q < |dstK| ==> dstK[q] < 35
    requires forall q1, q2 :: 0 <= q1 < q2 < |dstK| ==> dstK[q1] != dstK[q2]
    requires forall q1, q2 :: 0 <= q1 < |srcK| && 0 <= q2 < |dstK| ==> srcK[q1] != dstK[q2]
    ensures WellFormed(st, ArenaLen(W, H)) && DstsDistinct(st) && SrcsApart(st)
  {
    var px, rows0 := PxStride(W), (H + 1) / 2;
    ScaleFitsTile(W, H, scale);
    TiledStageFits(st.srcs, srcK, px, rows0, st.rows, st.cols);
    TiledStageFits(st.dsts, dstK, px, rows0, st.rows, st.cols);
    TiledStageApart(st, srcK, dstK, px, rows0);
  }

  /** adm_decouple of scale `scale` on the arena. */
  function DecoupleAt(W: nat, H: nat, scale: nat): Stage {
    var lay := Lay(W, H);
    DecoupleStage(lay.refDwt, lay.mainDwt, lay.decoupleR, lay.decoupleA, Dim(W, scale + 1), Dim(H, scale + 1), PxStride(W))
  }

  lemma DecoupleAtApart(W: nat, H: nat, scale: nat)
    requires W >= 2 && H >= 2
    ensures WellFormed(DecoupleAt(W, H, scale), ArenaLen(W, H))
    ensures DstsDistinct(DecoupleAt(W, H, scale)) && SrcsApart(DecoupleAt(W, H, scale))
  {
    var sz, px := TileLen(W, H), PxStride(W);
    LayTiles(W, H);
    TileViewsConcat([3, 4, 5], [7, 8, 9], sz, px);
    TileViewsConcat([11, 12, 13], [15, 16, 17], sz, px);
    TiledScaleStage(DecoupleAt(W, H, scale), [3, 4, 5, 7, 8, 9], [11, 12, 13, 15, 16, 17], W, H, scale);
  }

  /** The three adm_csf calls of a scale: ref_dwt2 to csf_o, decouple_r to csf_r, decouple_a to csf_a. */
  function CsfSrc(W: nat, H: nat, call: nat): BandSet {
    var lay := Lay(W, H);
    if call == 0 then lay.refDwt else if call == 1 then lay.decoupleR else lay.decoupleA
  }

  function CsfDst(W: nat, H: nat, call: nat): BandSet {
    var lay := Lay(W, H);
    if call == 0 then lay.csfO else if call == 1 then lay.csfR else lay.csfA
  }

  function CsfAt(W: nat, H: nat, scale: nat, call: nat, theta: nat): Stage
    requires scale < 4 && theta < 3
  {
    CsfStage(CsfSrc(W, H, call), CsfDst(W, H, call), scale, theta, Dim(W, scale + 1), Dim(H, scale + 1), PxStride(W))
  }

  /** The tile the csf call reads orientation theta from, and the one it writes. */
  function CsfSrcTile(call: nat, theta: nat): nat { (if call == 0 then 2 else if call == 1 then 10 else 14) + 1 + theta }
  function CsfDstTile(call: nat, theta: nat): nat { (if call == 0 then 18 else if call == 1 then 22 else 26) + 1 + theta }

  lemma CsfAtTiles(W: nat, H: nat, scale: nat, call: nat, theta: nat)
    requires scale < 4 && call < 3 && theta < 3
    ensures CsfAt(W, H, scale, call, theta).srcs == [Tile(CsfSrcTile(call, theta), W, H)]
    ensures CsfAt(W, H, scale, call, theta).dsts == [Tile(CsfDstTile(call, theta), W, H)]
  {
    var sz, px := TileLen(W, H), PxStride(W);
    BandsAngle(if call == 0 then 2 else if call == 1 then 10 else 14, sz, px, theta);
    BandsAngle(if call == 0 then 18 else if call == 1 then 22 else 26, sz, px, theta);
  }

  lemma CsfAtApart(W: nat, H: nat, scale: nat, call: nat, theta: nat)
    requires W >= 2 && H >= 2 && scale < 4 && call < 3 && theta < 3
    ensures WellFormed(CsfAt(W, H, scale, call, theta), ArenaLen(W, H))
    ensures DstsDistinct(CsfAt(W, H, scale, call, theta)) && SrcsApart(CsfAt(W, H, scale, call, theta))
  {
    var sz, px := TileLen(W, H), PxStride(W);
    CsfAtTiles(W, H, scale, call, theta);
    assert [Tile(CsfSrcTile(call, theta), W, H)] == TileViews([CsfSrcTile(call, theta)], sz, px);
    assert [Tile(CsfDstTile(call, theta), W, H)] == TileViews([CsfDstTile(call, theta)], sz, px);
    TiledScaleStage(CsfAt(W, H, scale, call, theta), [CsfSrcTile(call, theta)], [CsfDstTile(call, theta)], W, H, scale);
  }

  /** Each adm_csf call of a scale fits the arena for all three orientations. */
  lemma CsfAtFits(W: nat, H: nat, scale: nat, call: nat)
    requires W >= 2 && H >= 2 && scale < 4 && call < 3
    ensures AnglesFit(CsfSrc(W, H, call), CsfDst(W, H, call), Dim(W, scale + 1), Dim(H, scale + 1), PxStride(W), ArenaLen(W, H))
  {
    var w, h, px, len := Dim(W, scale + 1), Dim(H, scale + 1), PxStride(W), ArenaLen(W, H);
    forall theta | 0 <= theta < 3
      ensures Fits(V(Angle(CsfSrc(W, H, call), theta), px), h, w, len)
      ensures Fits(V(Angle(CsfDst(W, H, call), theta), px), h, w, len)
    {
      CsfAtApart(W, H, scale, call, theta);
      var st := CsfAt(W, H, scale, call, theta);
      assert Fits(st.srcs[0], h, w, len) && Fits(st.dsts[0], h, w, len);
    }
  }

  /** The row clear of adm_cm_thresh on mta. */
  function ClearAt(W: nat, H: nat, scale: nat): Stage {
    ClearStage(V(Lay(W, H).mta, PxStride(W)), Dim(W, scale + 1), Dim(H, scale + 1))
  }

  lemma ClearAtApart(W: nat, H: nat, scale: nat)
    requires W >= 2 && H >= 2
    ensures WellFormed(ClearAt(W, H, scale), ArenaLen(W, H))
    ensures DstsDistinct(ClearAt(W, H, scale)) && SrcsApart(ClearAt(W, H, scale))
  {
    LayTiles(W, H);
    assert [Tile(30, W, H)] == TileViews([30], TileLen(W, H), PxStride(W));
    TiledScaleStage(ClearAt(W, H, scale), [], [30], W, H, scale);
  }

  /** adm_cm: csf_r and mta into cm_r. */
  function CmAt(W: nat, H: nat, scale: nat): Stage {
    var lay := Lay(W, H);
    CmStage(lay.csfR, lay.cmR, V(lay.mta, PxStride(W)), Dim(W, scale + 1), Dim(H, scale + 1), PxStride(W))
  }

  lemma CmAtApart(W: nat, H: nat, scale: nat)
    requires W >= 2 && H >= 2
    ensures WellFormed(CmAt(W, H, scale), ArenaLen(W, H))
    ensures DstsDistinct(CmAt(W, H, scale)) && SrcsApart(CmAt(W, H, scale))
  {
    var sz, px := TileLen(W, H), PxStride(W);
    LayTiles(W, H);
    assert [Tile(30, W, H)] == TileViews([30], sz, px);
    TileViewsConcat([23, 24, 25], [30], sz, px);
    TiledScaleStage(CmAt(W, H, scale), [23, 24, 25, 30], [32, 33, 34], W, H, scale);
  }

  /** The two adm_buffer_copy calls: ref_dwt2.band_a to ref_scale (call 0), main_dwt2.band_a to main_scale (call 1). */
  function CopyAt(W: nat, H: nat, scale: nat, call: nat): Stage {
    var lay := Lay(W, H);
    var src := if call == 0 then lay.refDwt.a else lay.mainDwt.a;
    var dst := if call == 0 then lay.refScale else lay.mainScale;
    CopyStage(V(src, PxStride(W)), V(dst, PxStride(W)), Dim(W, scale + 1), Dim(H, scale + 1))
  }

  lemma CopyAtApart(W: nat, H: nat, scale: nat, call: nat)
    requires W >= 2 && H >= 2 && call < 2
    ensures WellFormed(CopyAt(W, H, scale, call), ArenaLen(W, H))
    ensures DstsDistinct(CopyAt(W, H, scale, call)) && SrcsApart(CopyAt(W, H, scale, call))
    ensures CopyAt(W, H, scale, call).srcs == [Tile(if call == 0 then 2 else 6, W, H)]
    ensures CopyAt(W, H, scale, call).dsts == [Tile(call, W, H)]
  {
    var sz, px := TileLen(W, H), PxStride(W);
    LayTiles(W, H);
    var k := if call == 0 then 2 else 6;
    assert [Tile(k, W, H)] == TileViews([k], sz, px);
    assert [Tile(call, W, H)] == TileViews([call], sz, px);
    TiledScaleStage(CopyAt(W, H, scale, call), [k], [call], W, H, scale);
  }

  /** Band b (0 h, 1 v, 2 d) of cm_r (numerator) or csf_o (denominator), the bands adm_sum_cube reads. */
  function SumBand(W: nat, H: nat, den: bool, b: nat): View
    requires b < 3
  {
    var lay := Lay(W, H);
    Details(if den then lay.csfO else lay.cmR, PxStride(W))[b]
  }

  lemma SumBandFits(W: nat, H: nat, scale: nat, den: bool, b: nat)
    requires W >= 2 && H >= 2 && b < 3
    ensures SumBand(W, H, den, b) == Tile((if den then 19 else 32) + b, W, H)
    ensures Fits(SumBand(W, H, den, b), Dim(H, scale + 1), Dim(W, scale + 1), ArenaLen(W, H))
  {
    LayTiles(W, H);
    ScaleFitsTile(W, H, scale);
    TileFits((if den then 19 else 32) + b, PxStride(W), (H + 1) / 2, Dim(H, scale + 1), Dim(W, scale + 1));
  }

  // ---------------------------------------------------------------------
  // The wavelet transforms of a scale
  // ---------------------------------------------------------------------

  /** curr_ref_scale: the ref frame's plane at scale 0, ref_scale (tile 0) read at buf_stride afterwards. */
  function RefSource(ref: Frame, wide: bool, scale: nat, W: nat, H: nat): Source {
    if scale == 0 then PlaneSource(ref.data, ref.linesize, wide) else ArenaSource(Tile(0, W, H))
  }

  /** curr_main_scale: the main frame's plane at scale 0, main_scale (tile 1) afterwards. */
  function MainSource(main: Frame, wide: bool, scale: nat, W: nat, H: nat): Source {
    if scale == 0 then PlaneSource(main.data, main.linesize, wide) else ArenaSource(Tile(1, W, H))
  }

  /** Both frames hold H rows of W samples at their linesize. */
  predicate FramesFit(ref: Frame, main: Frame, wide: bool, W: nat, H: nat) {
    && SourceFits(PlaneSource(ref.data, ref.linesize, wide), 0, H, W)
    && SourceFits(PlaneSource(main.data, main.linesize, wide), 0, H, W)
  }

  /**
   * The H rows of W samples the transform reads from tile k at buf_stride
   * run into the next two tiles but end before tile k + 3.
   */
  lemma ArenaSourceSpan(W: nat, H: nat, k: nat, r: nat, c: nat)
    requires W >= 2 && H >= 2 && r < H && c < W
    ensures k * TileLen(W, H) <= Pos(Tile(k, W, H), r, c) < (k + 3) * TileLen(W, H)
  {
    var px, rows0, sz := PxStride(W), (H + 1) / 2, TileLen(W, H);
    SpanBound(px, rows0, H, W, r, c);
    assert (k + 3) * sz == k * sz + 3 * sz;
  }

  lemma SpanBound(px: nat, rows0: nat, H: nat, W: nat, r: nat, c: nat)
    requires H <= 2 * rows0 && rows0 >= 1 && W <= 2 * px && r < H && c < W
    ensures r * px + c < 3 * (px * rows0)
  {
    MulMono(r, H - 1, px);
    assert (H - 1) * px + 2 * px == (H + 1) * px;
    MulMono(H + 1, 2 * rows0 + 1, px);
    assert (2 * rows0 + 1) * px == 2 * (px * rows0) + px;
    MulMono(1, rows0, px);
  }

  /** The band set carved from tile k has its a, v, h, d bands in tiles k, k + 2, k + 1, k + 3. */
  lemma BandViewTile(k: nat, W: nat, H: nat, b: nat)
    requires b < 4
    ensures BandView(Bands(k, TileLen(W, H)), PxStride(W), b) == Tile(k + (if b == 0 then 0 else if b == 1 then 2 else if b == 2 then 1 else 3), W, H)
  {
  }

  /** The four bands of a transform into the band set of tile k fit the arena and never share a cell. */
  lemma DwtBandsOk(W: nat, H: nat, k: nat)
    requires W >= 2 && H >= 2 && k + 4 <= 35
    ensures BandsFit(Bands(k, TileLen(W, H)), PxStride(W), (H + 1) / 2, (W + 1) / 2, ArenaLen(W, H))
    ensures BandsDistinct(Bands(k, TileLen(W, H)), PxStride(W), (H + 1) / 2, (W + 1) / 2)
  {
    var px, rows0, sz := PxStride(W), (H + 1) / 2, TileLen(W, H);
    var dst := Bands(k, sz);
    TileFits(k, px, rows0, rows0, (W + 1) / 2);
    TileFits(k + 1, px, rows0, rows0, (W + 1) / 2);
    TileFits(k + 2, px, rows0, rows0, (W + 1) / 2);
    TileFits(k + 3, px, rows0, rows0, (W + 1) / 2);
    forall b1: nat, b2: nat, i1: nat, j1: nat, i2: nat, j2: nat |
      b1 < 4 && b2 < 4 && i1 < rows0 && i2 < rows0 && j1 < (W + 1) / 2 && j2 < (W + 1) / 2 &&
      (b1 != b2 || i1 != i2 || j1 != j2)
      ensures Pos(BandView(dst, px, b1), i1, j1) != Pos(BandView(dst, px, b2), i2, j2)
    {
      BandViewTile(k, W, H, b1);
      BandViewTile(k, W, H, b2);
      var t1 := k + (if b1 == 0 then 0 else if b1 == 1 then 2 else if b1 == 2 then 1 else 3);
      var t2 := k + (if b2 == 0 then 0 else if b2 == 1 then 2 else if b2 == 2 then 1 else 3);
      TileCellsDistinct(t1, t2, px, rows0, i1, j1, i2, j2);
    }
  }

  /** The transforms of a scale have the shape Transform needs. */
  lemma DwtShapes(ref: Frame, main: Frame, wide: bool, W: nat, H: nat, scale: nat, len: nat)
    requires ArenaShape(W, H, len) && FramesFit(ref, main, wide, W, H)
    ensures DwtShape(RefSource(ref, wide, scale, W, H), len, Lay(W, H).refDwt, PxStride(W), W, H)
    ensures DwtShape(MainSource(main, wide, scale, W, H), len, Lay(W, H).mainDwt, PxStride(W), W, H)
    ensures BandsDistinct(Lay(W, H).refDwt, PxStride(W), (H + 1) / 2, (W + 1) / 2)
    ensures BandsDistinct(Lay(W, H).mainDwt, PxStride(W), (H + 1) / 2, (W + 1) / 2)
  {
    DwtBandsOk(W, H, 2);
    DwtBandsOk(W, H, 6);
    if scale > 0 {
      ArenaSourceSpan(W, H, 0, H - 1, W - 1);
      ArenaSourceSpan(W, H, 1, H - 1, W - 1);
    }
  }

  /**
   * The main transform never reads a cell of main_dwt2: its samples, plane
   * or tiles 1 .. 3, lie below tile 6.  So at every scale the bands of
   * main_dwt2 hold the db2 sums of main's samples (Transform's RowsHold).
   */
  lemma MainSourceApart(main: Frame, wide: bool, W: nat, H: nat, scale: nat)
    requires W >= 2 && H >= 2
    ensures SourceApart(MainSource(main, wide, scale, W, H), Lay(W, H).mainDwt, PxStride(W), W, H)
  {
    var px, rows0, sz := PxStride(W), (H + 1) / 2, TileLen(W, H);
    if scale > 0 {
      forall r: nat, c: nat, i: nat, j: nat | r < H && c < W && i < rows0 && j < (W + 1) / 2
        ensures NotBandCell(Lay(W, H).mainDwt, px, i, j, Pos(Tile(1, W, H), r, c))
      {
        ArenaSourceSpan(W, H, 1, r, c);
        CellInTile(6, px, rows0, i, j);
        CellInTile(7, px, rows0, i, j);
        CellInTile(8, px, rows0, i, j);
        CellInTile(9, px, rows0, i, j);
        MulMono(4, 6, sz);
      }
    }
  }

  /**
   * At scales 1 .. 3 the ref transform reads s->height rows of s->width
   * samples from ref_scale at buf_stride.  For an even height and a
   * buf_stride below the width (so for 1920 x 1080), sample (H - 1,
   * PxStride(W)) is cell (0, 0) of ref_dwt2.band_a, which the same
   * transform has written at its first output row: the source and the bands
   * are not apart.
   */
  lemma RefSourceReadsApprox(ref: Frame, wide: bool, W: nat, H: nat, scale: nat)
    requires W >= 2 && H >= 2 && H % 2 == 0 && PxStride(W) < W && scale > 0
    ensures Pos(Tile(0, W, H), H - 1, PxStride(W)) == Pos(V(Lay(W, H).refDwt.a, PxStride(W)), 0, 0)
    ensures !SourceApart(RefSource(ref, wide, scale, W, H), Lay(W, H).refDwt, PxStride(W), W, H)
  {
    var px := PxStride(W);
    assert (H + 1) / 2 == H / 2;
    assert 2 * (px * (H / 2)) == (H - 1) * px + px;
    assert !NotBandCell(Lay(W, H).refDwt, px, 0, 0, Pos(Tile(0, W, H), H - 1, px));
  }

  /** For a 1920 x 1080 frame, buf_stride is 1920 bytes: 960 elements, below the width. */
  lemma FullHdReadsApprox(ref: Frame, wide: bool)
    ensures PxStride(1920) == 960
    ensures !SourceApart(RefSource(ref, wide, 1, 1920, 1080), Lay(1920, 1080).refDwt, PxStride(1920), 1920, 1080)
  {
    assert AlignCeil(1920) == 1920;
    RefSourceReadsApprox(ref, wide, 1920, 1080, 1);
  }

  // ---------------------------------------------------------------------
  // One scale, as functions of the arena at its start
  // ---------------------------------------------------------------------

  /** The arena after the ref transform of a scale. */
  function RefDwtArena(s: seq<Int16>, ref: Frame, main: Frame, wide: bool, W: nat, H: nat, scale: nat): (r: seq<Int16>)
    requires ArenaShape(W, H, |s|) && FramesFit(ref, main, wide, W, H)
    ensures |r| == |s|
  {
    DwtShapes(ref, main, wide, W, H, scale, |s|);
    Dwt(RefSource(ref, wide, scale, W, H), s, Lay(W, H).refDwt, PxStride(W), W, H)
  }

  /** The arena after both transforms of a scale: ref into ref_dwt2, then main into main_dwt2. */
  function DwtArena(s: seq<Int16>, ref: Frame, main: Frame, wide: bool, W: nat, H: nat, scale: nat): (r: seq<Int16>)
    requires ArenaShape(W, H, |s|) && FramesFit(ref, main, wide, W, H)
    ensures |r| == |s|
  {
    var s1 := RefDwtArena(s, ref, main, wide, W, H, scale);
    DwtShapes(ref, main, wide, W, H, scale, |s1|);
    Dwt(MainSource(main, wide, scale, W, H), s1, Lay(W, H).mainDwt, PxStride(W), W, H)
  }

  /** What temp_lo (FilterLo) or temp_hi (FilterHi) holds after the transforms of a scale: the main transform's last row. */
  function TempRowAfter(coeffs: seq<int>, s: seq<Int16>, ref: Frame, main: Frame, wide: bool, W: nat, H: nat, scale: nat): (r: seq<Int16>)
    requires |coeffs| == 4 && ArenaShape(W, H, |s|) && FramesFit(ref, main, wide, W, H)
    ensures |r| == W
  {
    var s1 := RefDwtArena(s, ref, main, wide, W, H, scale);
    DwtShapes(ref, main, wide, W, H, scale, |s1|);
    TempAfter(coeffs, MainSource(main, wide, scale, W, H), s1, Lay(W, H).mainDwt, PxStride(W), W, H, (H + 1) / 2)
  }

  /**
   * Every cell of rows < (H + 1) / 2, columns < (W + 1) / 2 of the four
   * bands of ref_dwt2 (isMain false) or main_dwt2 holds the db2 sums of the
   * transform's samples as they were in s before it: band_a lo-lo, band_v
   * lo-hi, band_h hi-lo, band_d hi-hi.
   */
  ghost predicate BandsHold(t: seq<Int16>, s: seq<Int16>, ref: Frame, main: Frame, wide: bool, W: nat, H: nat, scale: nat, isMain: bool)
    requires ArenaShape(W, H, |s|) && |t| == |s| && FramesFit(ref, main, wide, W, H)
  {
    DwtShapes(ref, main, wide, W, H, scale, |s|);
    if isMain then RowsHold(t, MainSource(main, wide, scale, W, H), s, Lay(W, H).mainDwt, PxStride(W), W, H, (H + 1) / 2)
    else RowsHold(t, RefSource(ref, wide, scale, W, H), s, Lay(W, H).refDwt, PxStride(W), W, H, (H + 1) / 2)
  }

  /** decouple, the three csf calls, the threshold and the masking of a scale, in the order of the loop body. */
  function MaskArena(s: seq<Int16>, W: nat, H: nat, scale: nat): (r: seq<Int16>)
    requires ArenaShape(W, H, |s|) && scale < 4
    ensures |r| == |s|
  {
    var w, h, px := Dim(W, scale + 1), Dim(H, scale + 1), PxStride(W);
    DecoupleAtApart(W, H, scale);
    var s3 := Raster(DecoupleAt(W, H, scale), s);
    CsfAtFits(W, H, scale, 0);
    CsfAtFits(W, H, scale, 1);
    CsfAtFits(W, H, scale, 2);
    var s4 := CsfArena(s3, CsfSrc(W, H, 0), CsfDst(W, H, 0), scale, w, h, px);
    var s5 := CsfArena(s4, CsfSrc(W, H, 1), CsfDst(W, H, 1), scale, w, h, px);
    var s6 := CsfArena(s5, CsfSrc(W, H, 2), CsfDst(W, H, 2), scale, w, h, px);
    ClearAtApart(W, H, scale);
    var s7 := Raster(ClearAt(W, H, scale), s6);
    CmAtApart(W, H, scale);
    Raster(CmAt(W, H, scale), s7)
  }

  /** num_scale (from cm_r) or den_scale (from csf_o): the int16 sums of cubes of bands h, v, d. */
  function ScaleSum(s: seq<Int16>, W: nat, H: nat, scale: nat, den: bool): int
    requires ArenaShape(W, H, |s|)
  {
    var w, h := Dim(W, scale + 1), Dim(H, scale + 1);
    SumBandFits(W, H, scale, den, 0);
    SumBandFits(W, H, scale, den, 1);
    SumBandFits(W, H, scale, den, 2);
    SumCubeValue(s, SumBand(W, H, den, 0), w, h) as int
    + SumCubeValue(s, SumBand(W, H, den, 1), w, h) as int
    + SumCubeValue(s, SumBand(W, H, den, 2), w, h) as int
  }

  /** The hand-off of the two approximation bands to ref_scale and main_scale. */
  function CopyArena(s: seq<Int16>, W: nat, H: nat, scale: nat): (r: seq<Int16>)
    requires ArenaShape(W, H, |s|)
    ensures |r| == |s|
  {
    CopyAtApart(W, H, scale, 0);
    CopyAtApart(W, H, scale, 1);
    Raster(CopyAt(W, H, scale, 1), Raster(CopyAt(W, H, scale, 0), s))
  }

  /** The arena a scale hands to the sums of cubes. */
  function ScaledArena(s: seq<Int16>, ref: Frame, main: Frame, wide: bool, W: nat, H: nat, scale: nat): (r: seq<Int16>)
    requires ArenaShape(W, H, |s|) && FramesFit(ref, main, wide, W, H) && scale < 4
    ensures |r| == |s|
  {
    MaskArena(DwtArena(s, ref, main, wide, W, H, scale), W, H, scale)
  }

  /** The arena after scale `scale`, handed to the next one. */
  function NextArena(s: seq<Int16>, ref: Frame, main: Frame, wide: bool, W: nat, H: nat, scale: nat): (r: seq<Int16>)
    requires ArenaShape(W, H, |s|) && FramesFit(ref, main, wide, W, H) && scale < 4
    ensures |r| == |s|
  {
    CopyArena(ScaledArena(s, ref, main, wide, W, H, scale), W, H, scale)
  }

  /** num_scale (den false) or den_scale (den true) of scale `scale` from the arena at its start. */
  function ScaleScore(s: seq<Int16>, ref: Frame, main: Frame, wide: bool, W: nat, H: nat, scale: nat, den: bool): int
    requires ArenaShape(W, H, |s|) && FramesFit(ref, main, wide, W, H) && scale < 4
  {
    ScaleSum(ScaledArena(s, ref, main, wide, W, H, scale), W, H, scale, den)
  }

  /** The arena at the start of scale k. */
  function ArenaAt(s0: seq<Int16>, ref: Frame, main: Frame, wide: bool, W: nat, H: nat, k: nat): (r: seq<Int16>)
    requires ArenaShape(W, H, |s0|) && FramesFit(ref, main, wide, W, H) && k <= 4
    ensures |r| == |s0|
  {
    if k == 0 then s0 else NextArena(ArenaAt(s0, ref, main, wide, W, H, k - 1), ref, main, wide, W, H, k - 1)
  }

  /** scores[0 .. 2k - 1]: num_scale and den_scale of scales 0 .. k - 1. */
  function ScoresUpTo(s0: seq<Int16>, ref: Frame, main: Frame, wide: bool, W: nat, H: nat, k: nat): (r: seq<int>)
    requires ArenaShape(W, H, |s0|) && FramesFit(ref, main, wide, W, H) && k <= 4
    ensures |r| == 2 * k
  {
    if k == 0 then []
    else
      var t := ArenaAt(s0, ref, main, wide, W, H, k - 1);
      ScoresUpTo(s0, ref, main, wide, W, H, k - 1)
      + [ScaleScore(t, ref, main, wide, W, H, k - 1, false), ScaleScore(t, ref, main, wide, W, H, k - 1, true)]
  }

  // ---------------------------------------------------------------------
  // Scores and the final ratio
  // ---------------------------------------------------------------------

  /** scores[parity] + scores[2 + parity] + ... over n scales. */
  function PairSum(sc: seq<int>, parity: nat, n: nat): int
    requires parity < 2 && 2 * n <= |sc|
  {
    if n == 0 then 0 else PairSum(sc, parity, n - 1) + sc[2 * (n - 1) + parity]
  }

  /** Appending a scale's pair leaves the sums of the earlier scales alone. */
  lemma {:induction false} PairSumAppend(sc: seq<int>, more: seq<int>, parity: nat, n: nat)
    requires parity < 2 && 2 * n <= |sc|
    ensures PairSum(sc + more, parity, n) == PairSum(sc, parity, n)
  {
    if n > 0 {
      PairSumAppend(sc, more, parity, n - 1);
      assert (sc + more)[2 * (n - 1) + parity] == sc[2 * (n - 1) + parity];
    }
  }

  /** `num += num_scale; den += den_scale;`: the sums over n + 1 scales after appending scale n's pair. */
  lemma PairSumStep(sc: seq<int>, n: nat, numScale: int, denScale: int)
    requires |sc| == 2 * n
    ensures PairSum(sc + [numScale, denScale], 0, n + 1) == PairSum(sc, 0, n) + numScale
    ensures PairSum(sc + [numScale, denScale], 1, n + 1) == PairSum(sc, 1, n) + denScale
  {
    PairSumAppend(sc, [numScale, denScale], 0, n);
    PairSumAppend(sc, [numScale, denScale], 1, n);
  }

  /** numden_limit = 1e-2 * (w * h) / (1920.0 * 1080.0). */
  function NumdenLimit(W: nat, H: nat): (r: real)
    ensures 0.0 <= r
    ensures W == 1920 && H == 1080 ==> r == 0.01
    ensures W * H <= 2488320000 ==> r <= 12.0
  {
    0.01 * ((W * H) as real) / (1920.0 * 1080.0)
  }

  /** `x < numden_limit ? 0 : x`. */
  function NoiseFloor(x: real, limit: real): (r: real)
    ensures r == 0.0 || r == x
    ensures r == x <==> (x >= limit || x == 0.0)
  {
    if x < limit then 0.0 else x
  }

  /** The result of ff_adm_process: (*score, *score_num, *score_den) from the accumulated num and den. */
  function Final(num: int, den: int, W: nat, H: nat): (r: (real, real, real))
    ensures var lim := NumdenLimit(W, H);
      && (den as real < lim ==> r.0 == 1.0 && r.2 == 0.0)
      && (0 < den && lim <= den as real && lim <= num as real ==> r == (num as real / den as real, num as real, den as real))
      && (0 < den && lim <= den as real && num as real < lim ==> r.0 == 0.0 && r.1 == 0.0)
  {
    var n := NoiseFloor(num as real, NumdenLimit(W, H));
    var d := NoiseFloor(den as real, NumdenLimit(W, H));
    (if d == 0.0 then 1.0 else n / d, n, d)
  }

  /** Each of num and den comes out of the noise floor as itself or as 0, and as 0 exactly when it lies below the limit. */
  lemma FinalFloor(num: int, den: int, W: nat, H: nat)
    ensures var r, lim := Final(num, den, W, H), NumdenLimit(W, H);
      && (r.1 == if (num as real) < lim then 0.0 else num as real)
      && (r.2 == if (den as real) < lim then 0.0 else den as real)
      && (r.1 == 0.0 || r.1 >= lim) && (r.2 == 0.0 || r.2 >= lim)
  {
  }

  /** The score is 1.0 when the floored den is 0 and otherwise the floored num over the floored den. */
  lemma FinalRatio(num: int, den: int, W: nat, H: nat)
    ensures var r := Final(num, den, W, H);
      && (r.2 == 0.0 ==> r.0 == 1.0)
      && (r.2 != 0.0 ==> r.0 * r.2 == r.1)
  {
  }

  /**
   * What adm_sum_cube needs to stay clear of int32 overflow on the three
   * bands a scale sums: no -32768 sample inside the border, and final cube
   * sums and area below 2^31 (every running sum is then too: SumCubeRunningSum).
   */
  ghost predicate CubesFit(s: seq<Int16>, W: nat, H: nat, scale: nat, den: bool)
    requires ArenaShape(W, H, |s|)
  {
    var w, h := Dim(W, scale + 1), Dim(H, scale + 1);
    SumBandFits(W, H, scale, den, 0);
    SumBandFits(W, H, scale, den, 1);
    SumBandFits(W, H, scale, den, 2);
    var b := Border(w, h);
    && BorderArea(w, h) < 0x8000_0000
    && NoMinSample(s, SumBand(W, H, den, 0), b.0, b.1, b.2, b.3)
    && NoMinSample(s, SumBand(W, H, den, 1), b.0, b.1, b.2, b.3)
    && NoMinSample(s, SumBand(W, H, den, 2), b.0, b.1, b.2, b.3)
    && 0 <= BorderCubes(s, SumBand(W, H, den, 0), w, h) < 0x8000_0000
    && 0 <= BorderCubes(s, SumBand(W, H, den, 1), w, h) < 0x8000_0000
    && 0 <= BorderCubes(s, SumBand(W, H, den, 2), w, h) < 0x8000_0000
  }

  /** Without int32 overflow in the cube sums, num_scale and den_scale each lie in [3, 3 * 1698]. */
  lemma ScaleSumInRange(s: seq<Int16>, W: nat, H: nat, scale: nat, den: bool)
    requires ArenaShape(W, H, |s|) && CubesFit(s, W, H, scale, den)
    ensures 3 <= ScaleSum(s, W, H, scale, den) <= 5094
  {
    var w, h := Dim(W, scale + 1), Dim(H, scale + 1);
    SumBandFits(W, H, scale, den, 0);
    SumBandFits(W, H, scale, den, 1);
    SumBandFits(W, H, scale, den, 2);
    SumCubeInRange(s, SumBand(W, H, den, 0), w, h);
    SumCubeInRange(s, SumBand(W, H, den, 1), w, h);
    SumCubeInRange(s, SumBand(W, H, den, 2), w, h);
  }

  /** Sums of n scores that each lie in [lo, hi] lie in [n * lo, n * hi]. */
  lemma {:induction false} PairSumBounds(sc: seq<int>, parity: nat, n: nat, lo: int, hi: int)
    requires parity < 2 && 2 * n <= |sc|
    requires forall k :: 0 <= k < |sc| ==> lo <= sc[k] <= hi
    ensures n * lo <= PairSum(sc, parity, n) <= n * hi
  {
    if n > 0 {
      PairSumBounds(sc, parity, n - 1, lo, hi);
      assert lo <= sc[2 * (n - 1) + parity] <= hi;
      assert n * lo == (n - 1) * lo + lo && n * hi == (n - 1) * hi + hi;
    }
  }

  /**
   * With every num_scale and den_scale in [3, 5094] (ScaleSumInRange) and a
   * frame of at most 2488320000 pixels, the noise floor (at most 12) keeps
   * both sums, den is at least 12 and the score is num / den > 0.
   */
  lemma FinalOfScores(sc: seq<int>, W: nat, H: nat)
    requires |sc| == 2 * Scales && forall k :: 0 <= k < |sc| ==> 3 <= sc[k] <= 5094
    requires W * H <= 2488320000
    ensures var num, den := PairSum(sc, 0, Scales), PairSum(sc, 1, Scales);
      var r := Final(num, den, W, H);
      && 12 <= den <= 20376 && 12 <= num <= 20376
      && r.1 == num as real && r.2 == den as real
      && r.0 == r.1 / r.2 && r.0 > 0.0
  {
    PairSumBounds(sc, 0, Scales, 3, 5094);
    PairSumBounds(sc, 1, Scales, 3, 5094);
    var lim := NumdenLimit(W, H);
    assert lim <= 12.0 by {
      assert (W * H) as real <= 2488320000.0;
    }
  }

  /** The score (*score) ff_adm_process computes for a (ref, main) pair from the arena it starts with. */
  function FrameScore(s0: seq<Int16>, ref: Frame, main: Frame, wide: bool, W: nat, H: nat): real
    requires ArenaShape(W, H, |s0|) && FramesFit(ref, main, wide, W, H)
  {
    var sc := ScoresUpTo(s0, ref, main, wide, W, H, Scales);
    Final(PairSum(sc, 0, Scales), PairSum(sc, 1, Scales), W, H).0
  }

  // ---------------------------------------------------------------------
  // ff_adm_process
  // ---------------------------------------------------------------------

  /**
   * ff_adm_process on the state's data_buf, temp_lo and temp_hi, with the
   * caller's scores[8].  wide is a bit depth above 8 (adm_dwt2_10bit).
   */
  method Process(dataBuf: array<Int16>, tempLo: array<Int16>, tempHi: array<Int16>, W: nat, H: nat, wide: bool,
                 ref: Frame, main: Frame, scores: array<int>)
    returns (score: real, scoreNum: real, scoreDen: real)
    requires ArenaShape(W, H, dataBuf.Length) && FramesFit(ref, main, wide, W, H)
    requires tempLo.Length >= W && tempHi.Length >= W && scores.Length == 8
    requires dataBuf != tempLo && dataBuf != tempHi && tempLo != tempHi
    modifies dataBuf, tempLo, tempHi, scores
    ensures scores[..] == ScoresUpTo(old(dataBuf[..]), ref, main, wide, W, H, Scales)
    ensures (score, scoreNum, scoreDen) == Final(PairSum(scores[..], 0, Scales), PairSum(scores[..], 1, Scales), W, H)
    ensures dataBuf[..] == ArenaAt(old(dataBuf[..]), ref, main, wide, W, H, Scales)
    ensures tempLo[W..] == old(tempLo[W..]) && tempHi[W..] == old(tempHi[W..])
  {
    var sc := RunScales(dataBuf, tempLo, tempHi, W, H, wide, ref, main);
    var num, den := StoreScores(scores, sc);
    var r := Final(num, den, W, H);
    score, scoreNum, scoreDen := r.0, r.1, r.2;
  }

  /** do_adm's call `ff_adm_process(s, ref, main, &score, &score_num, &score_den, scores)` with its local scores[8]. */
  method ScoreFrame(dataBuf: array<Int16>, tempLo: array<Int16>, tempHi: array<Int16>, W: nat, H: nat, wide: bool,
                    ref: Frame, main: Frame)
    returns (score: real)
    requires ArenaShape(W, H, dataBuf.Length) && FramesFit(ref, main, wide, W, H)
    requires tempLo.Length >= W && tempHi.Length >= W
    requires dataBuf != tempLo && dataBuf != tempHi && tempLo != tempHi
    modifies dataBuf, tempLo, tempHi
    ensures score == FrameScore(old(dataBuf[..]), ref, main, wide, W, H)
    ensures dataBuf[..] == ArenaAt(old(dataBuf[..]), ref, main, wide, W, H, Scales)
    ensures tempLo[W..] == old(tempLo[W..]) && tempHi[W..] == old(tempHi[W..])
  {
    var scores := new int[2 * Scales];
    var scoreNum, scoreDen;
    score, scoreNum, scoreDen := Process(dataBuf, tempLo, tempHi, W, H, wide, ref, main, scores);
  }

  /** The arena carving and the scale loop of ff_adm_process. */
  method RunScales(dataBuf: array<Int16>, tempLo: array<Int16>, tempHi: array<Int16>, W: nat, H: nat, wide: bool,
                   ref: Frame, main: Frame)
    returns (sc: seq<int>)
    requires ArenaShape(W, H, dataBuf.Length) && FramesFit(ref, main, wide, W, H)
    requires tempLo.Length >= W && tempHi.Length >= W
    requires dataBuf != tempLo && dataBuf != tempHi && tempLo != tempHi
    modifies dataBuf, tempLo, tempHi
    ensures dataBuf[..] == ArenaAt(old(dataBuf[..]), ref, main, wide, W, H, Scales)
    ensures sc == ScoresUpTo(old(dataBuf[..]), ref, main, wide, W, H, Scales) && |sc| == 2 * Scales
    ensures tempLo[W..] == old(tempLo[W..]) && tempHi[W..] == old(tempHi[W..])
  {
    var px := PxStride(W);  // buf_stride / sizeof(int16_t)
    var lay, top := Carve(TileLen(W, H));
    sc := ScaleLoop(dataBuf, tempLo, tempHi, lay, px, W, H, wide, ref, main);
  }

  /** The loop over the four scales: the arena after them, and each scale's (num_scale, den_scale) in order. */
  method ScaleLoop(dataBuf: array<Int16>, tempLo: array<Int16>, tempHi: array<Int16>, lay: Layout, px: nat,
                   W: nat, H: nat, wide: bool, ref: Frame, main: Frame)
    returns (sc: seq<int>)
    requires lay == Lay(W, H) && px == PxStride(W)
    requires ArenaShape(W, H, dataBuf.Length) && FramesFit(ref, main, wide, W, H)
    requires tempLo.Length >= W && tempHi.Length >= W
    requires dataBuf != tempLo && dataBuf != tempHi && tempLo != tempHi
    modifies dataBuf, tempLo, tempHi
    ensures dataBuf[..] == ArenaAt(old(dataBuf[..]), ref, main, wide, W, H, Scales)
    ensures sc == ScoresUpTo(old(dataBuf[..]), ref, main, wide, W, H, Scales) && |sc| == 2 * Scales
    ensures tempLo[W..] == old(tempLo[W..]) && tempHi[W..] == old(tempHi[W..])
  {
    ghost var s0 := dataBuf[..];
    sc := [];
    var w, h := W, H;
    var scale := 0;
    while scale < Scales
      invariant 0 <= scale <= Scales && w == Dim(W, scale) && h == Dim(H, scale)
      invariant dataBuf[..] == ArenaAt(s0, ref, main, wide, W, H, scale)
      invariant sc == ScoresUpTo(s0, ref, main, wide, W, H, scale)
      invariant tempLo[W..] == old(tempLo[W..]) && tempHi[W..] == old(tempHi[W..])
    {
      var numScale, denScale;
      numScale, denScale, w, h := ScaleIteration(dataBuf, tempLo, tempHi, lay, px, W, H, wide, ref, main, scale, w, h, s0, sc);
      sc := sc + [numScale, denScale];
      scale := scale + 1;
    }
  }

  /**
   * One pass of the scale loop in terms of the loop's specification: from
   * ArenaAt(s0, scale) to ArenaAt(s0, scale + 1), appending the scale's
   * num_scale and den_scale to the scores so far.
   */
  method ScaleIteration(dataBuf: array<Int16>, tempLo: array<Int16>, tempHi: array<Int16>, lay: Layout, px: nat,
                        W: nat, H: nat, wide: bool, ref: Frame, main: Frame, scale: nat, w: nat, h: nat,
                        ghost s0: seq<Int16>, sc: seq<int>)
    returns (numScale: int, denScale: int, w': nat, h': nat)
    requires lay == Lay(W, H) && px == PxStride(W) && scale < Scales && w == Dim(W, scale) && h == Dim(H, scale)
    requires ArenaShape(W, H, dataBuf.Length) && FramesFit(ref, main, wide, W, H) && |s0| == dataBuf.Length
    requires tempLo.Length >= W && tempHi.Length >= W
    requires dataBuf != tempLo && dataBuf != tempHi && tempLo != tempHi
    requires dataBuf[..] == ArenaAt(s0, ref, main, wide, W, H, scale)
    requires sc == ScoresUpTo(s0, ref, main, wide, W, H, scale)
    modifies dataBuf, tempLo, tempHi
    ensures dataBuf[..] == ArenaAt(s0, ref, main, wide, W, H, scale + 1)
    ensures sc + [numScale, denScale] == ScoresUpTo(s0, ref, main, wide, W, H, scale + 1)
    ensures w' == Dim(W, scale + 1) && h' == Dim(H, scale + 1)
    ensures tempLo[W..] == old(tempLo[W..]) && tempHi[W..] == old(tempHi[W..])
  {
    numScale, denScale, w', h' := ScaleStep(dataBuf, tempLo, tempHi, lay, px, W, H, wide, ref, main, scale, w, h);
  }

  /**
   * `scores[2*scale+0] = num_scale; scores[2*scale+1] = den_scale;` and
   * `num += num_scale; den += den_scale;` for the scales' pairs in order.
   */
  method StoreScores(scores: array<int>, sc: seq<int>) returns (num: int, den: int)
    requires |sc| == scores.Length == 2 * Scales
    modifies scores
    ensures scores[..] == sc
    ensures num == PairSum(sc, 0, Scales) && den == PairSum(sc, 1, Scales)
  {
    num, den := 0, 0;
    var scale := 0;
    while scale < Scales
      invariant 0 <= scale <= Scales
      invariant scores[..2 * scale] == sc[..2 * scale]
      invariant num == PairSum(sc[..2 * scale], 0, scale) && den == PairSum(sc[..2 * scale], 1, scale)
    {
      ghost var before := scores[..];
      scores[2 * scale] := sc[2 * scale];
      scores[2 * scale + 1] := sc[2 * scale + 1];
      assert scores[..2 * scale + 2] == before[..2 * scale] + [sc[2 * scale], sc[2 * scale + 1]];
      assert sc[..2 * scale + 2] == sc[..2 * scale] + [sc[2 * scale], sc[2 * scale + 1]];
      PairSumStep(sc[..2 * scale], scale, sc[2 * scale], sc[2 * scale + 1]);
      num := num + sc[2 * scale];
      den := den + sc[2 * scale + 1];
      scale := scale + 1;
    }
    assert scores[..] == scores[..2 * scale] && sc == sc[..2 * scale];
  }

  /** The body of the scale loop: w and h are the sizes of the previous scale and come back halved. */
  method ScaleStep(dataBuf: array<Int16>, tempLo: array<Int16>, tempHi: array<Int16>, lay: Layout, px: nat,
                   W: nat, H: nat, wide: bool, ref: Frame, main: Frame, scale: nat, w: nat, h: nat)
    returns (numScale: int, denScale: int, w': nat, h': nat)
    requires lay == Lay(W, H) && px == PxStride(W) && scale < 4 && w == Dim(W, scale) && h == Dim(H, scale)
    requires ArenaShape(W, H, dataBuf.Length) && FramesFit(ref, main, wide, W, H)
    requires tempLo.Length >= W && tempHi.Length >= W
    requires dataBuf != tempLo && dataBuf != tempHi && tempLo != tempHi
    modifies dataBuf, tempLo, tempHi
    ensures dataBuf[..] == NextArena(old(dataBuf[..]), ref, main, wide, W, H, scale)
    ensures numScale == ScaleScore(old(dataBuf[..]), ref, main, wide, W, H, scale, false)
    ensures denScale == ScaleScore(old(dataBuf[..]), ref, main, wide, W, H, scale, true)
    ensures w' == Dim(W, scale + 1) && h' == Dim(H, scale + 1)
    ensures tempLo[W..] == old(tempLo[W..]) && tempHi[W..] == old(tempHi[W..])
  {
    w' := (w + 1) / 2;
    h' := (h + 1) / 2;
    FrontScale(dataBuf, tempLo, tempHi, lay, px, W, H, wide, ref, main, scale, w', h');
    numScale, denScale := BackScale(dataBuf, lay, px, W, H, scale, w', h');
  }

  /** The loop body up to adm_cm: the transforms and the masking at the halved w and h. */
  method FrontScale(dataBuf: array<Int16>, tempLo: array<Int16>, tempHi: array<Int16>, lay: Layout, px: nat,
                    W: nat, H: nat, wide: bool, ref: Frame, main: Frame, scale: nat, w: nat, h: nat)
    requires lay == Lay(W, H) && px == PxStride(W) && scale < 4 && w == Dim(W, scale + 1) && h == Dim(H, scale + 1)
    requires ArenaShape(W, H, dataBuf.Length) && FramesFit(ref, main, wide, W, H)
    requires tempLo.Length >= W && tempHi.Length >= W
    requires dataBuf != tempLo && dataBuf != tempHi && tempLo != tempHi
    modifies dataBuf, tempLo, tempHi
    ensures dataBuf[..] == ScaledArena(old(dataBuf[..]), ref, main, wide, W, H, scale)
    ensures tempLo[W..] == old(tempLo[W..]) && tempHi[W..] == old(tempHi[W..])
  {
    TransformScale(dataBuf, tempLo, tempHi, lay, px, W, H, wide, ref, main, scale);
    MaskScale(dataBuf, lay, px, W, H, scale, w, h);
  }

  /** The loop body from the sums of cubes on: num_scale, den_scale and the hand-off. */
  method BackScale(dataBuf: array<Int16>, lay: Layout, px: nat, W: nat, H: nat, scale: nat, w: nat, h: nat)
    returns (numScale: int, denScale: int)
    requires lay == Lay(W, H) && px == PxStride(W) && ArenaShape(W, H, dataBuf.Length)
    requires w == Dim(W, scale + 1) && h == Dim(H, scale + 1)
    modifies dataBuf
    ensures numScale == ScaleSum(old(dataBuf[..]), W, H, scale, false)
    ensures denScale == ScaleSum(old(dataBuf[..]), W, H, scale, true)
    ensures dataBuf[..] == CopyArena(old(dataBuf[..]), W, H, scale)
  {
    numScale, denScale := SumScale(dataBuf, lay, px, W, H, scale, w, h);
    HandOff(dataBuf, lay, px, W, H, scale, w, h);
  }

  /** The two transforms at the head of the scale loop. */
  method TransformScale(dataBuf: array<Int16>, tempLo: array<Int16>, tempHi: array<Int16>, lay: Layout, px: nat,
                        W: nat, H: nat, wide: bool, ref: Frame, main: Frame, scale: nat)
    requires lay == Lay(W, H) && px == PxStride(W)
    requires ArenaShape(W, H, dataBuf.Length) && FramesFit(ref, main, wide, W, H)
    requires tempLo.Length >= W && tempHi.Length >= W
    requires dataBuf != tempLo && dataBuf != tempHi && tempLo != tempHi
    modifies dataBuf, tempLo, tempHi
    ensures dataBuf[..] == DwtArena(old(dataBuf[..]), ref, main, wide, W, H, scale)
    ensures tempLo[..W] == TempRowAfter(FilterLo, old(dataBuf[..]), ref, main, wide, W, H, scale)
    ensures tempHi[..W] == TempRowAfter(FilterHi, old(dataBuf[..]), ref, main, wide, W, H, scale)
    ensures tempLo[W..] == old(tempLo[W..]) && tempHi[W..] == old(tempHi[W..])
    ensures scale == 0 ==> BandsHold(RefDwtArena(old(dataBuf[..]), ref, main, wide, W, H, scale), old(dataBuf[..]), ref, main, wide, W, H, scale, false)
    ensures BandsHold(dataBuf[..], RefDwtArena(old(dataBuf[..]), ref, main, wide, W, H, scale), ref, main, wide, W, H, scale, true)
  {
    LayTiles(W, H);
    DwtShapes(ref, main, wide, W, H, scale, dataBuf.Length);
    MainSourceApart(main, wide, W, H, scale);
    var refSrc := if scale == 0 then PlaneSource(ref.data, ref.linesize, wide) else ArenaSource(V(lay.refScale, px));
    var mainSrc := if scale == 0 then PlaneSource(main.data, main.linesize, wide) else ArenaSource(V(lay.mainScale, px));
    Transform(refSrc, dataBuf, lay.refDwt, px, W, H, tempLo, tempHi);
    Transform(mainSrc, dataBuf, lay.mainDwt, px, W, H, tempLo, tempHi);
  }

  /** adm_decouple, the three adm_csf calls, adm_cm_thresh and adm_cm. */
  method MaskScale(dataBuf: array<Int16>, lay: Layout, px: nat, W: nat, H: nat, scale: nat, w: nat, h: nat)
    requires lay == Lay(W, H) && px == PxStride(W) && ArenaShape(W, H, dataBuf.Length) && scale < 4
    requires w == Dim(W, scale + 1) && h == Dim(H, scale + 1)
    modifies dataBuf
    ensures dataBuf[..] == MaskArena(old(dataBuf[..]), W, H, scale)
  {
    DecoupleAtApart(W, H, scale);
    Decouple(dataBuf, lay.refDwt, lay.mainDwt, lay.decoupleR, lay.decoupleA, w, h, px);
    CsfAtFits(W, H, scale, 0);
    CsfAtFits(W, H, scale, 1);
    CsfAtFits(W, H, scale, 2);
    Csf(dataBuf, lay.refDwt, lay.csfO, scale, w, h, px);
    Csf(dataBuf, lay.decoupleR, lay.csfR, scale, w, h, px);
    Csf(dataBuf, lay.decoupleA, lay.csfA, scale, w, h, px);
    ClearAtApart(W, H, scale);
    assert Fits(ClearAt(W, H, scale).dsts[0], h, w, dataBuf.Length);
    CmThresh(dataBuf, lay.csfA, V(lay.mta, px), w, h, px);
    CmAtApart(W, H, scale);
    Cm(dataBuf, lay.csfR, lay.cmR, V(lay.mta, px), w, h, px);
  }

  /** The six adm_sum_cube calls: num_scale over cm_r, den_scale over csf_o. */
  method SumScale(dataBuf: array<Int16>, lay: Layout, px: nat, W: nat, H: nat, scale: nat, w: nat, h: nat)
    returns (numScale: int, denScale: int)
    requires lay == Lay(W, H) && px == PxStride(W) && ArenaShape(W, H, dataBuf.Length)
    requires w == Dim(W, scale + 1) && h == Dim(H, scale + 1)
    ensures numScale == ScaleSum(dataBuf[..], W, H, scale, false)
    ensures denScale == ScaleSum(dataBuf[..], W, H, scale, true)
  {
    numScale, denScale := 0, 0;
    var c: Int16;
    ghost var visited: nat;
    SumBandFits(W, H, scale, false, 0);
    SumBandFits(W, H, scale, false, 1);
    SumBandFits(W, H, scale, false, 2);
    SumBandFits(W, H, scale, true, 0);
    SumBandFits(W, H, scale, true, 1);
    SumBandFits(W, H, scale, true, 2);
    c, visited := SumCube(dataBuf, V(lay.cmR.h, px), w, h);
    numScale := numScale + c;
    c, visited := SumCube(dataBuf, V(lay.cmR.v, px), w, h);
    numScale := numScale + c;
    c, visited := SumCube(dataBuf, V(lay.cmR.d, px), w, h);
    numScale := numScale + c;
    c, visited := SumCube(dataBuf, V(lay.csfO.h, px), w, h);
    denScale := denScale + c;
    c, visited := SumCube(dataBuf, V(lay.csfO.v, px), w, h);
    denScale := denScale + c;
    c, visited := SumCube(dataBuf, V(lay.csfO.d, px), w, h);
    denScale := denScale + c;
  }

  /** The two adm_buffer_copy calls that hand the approximation bands to the next scale. */
  method HandOff(dataBuf: array<Int16>, lay: Layout, px: nat, W: nat, H: nat, scale: nat, w: nat, h: nat)
    requires lay == Lay(W, H) && px == PxStride(W) && ArenaShape(W, H, dataBuf.Length)
    requires w == Dim(W, scale + 1) && h == Dim(H, scale + 1)
    modifies dataBuf
    ensures dataBuf[..] == CopyArena(old(dataBuf[..]), W, H, scale)
  {
    CopyAtApart(W, H, scale, 0);
    CopyAtApart(W, H, scale, 1);
    BufferCopy(dataBuf, V(lay.refDwt.a, px), V(lay.refScale, px), w, h);
    BufferCopy(dataBuf, V(lay.mainDwt.a, px), V(lay.mainScale, px), w, h);
  }
}
