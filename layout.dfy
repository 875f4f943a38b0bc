/**
 * The arena of ff_adm_process: data_buf is carved into 35 consecutive tiles
 * of buf_sz bytes (two scale buffers, seven band sets of four bands, mta and
 * one more band set), and every view walks its tile at buf_stride bytes per
 * row.  Offsets and strides are counted here in int16 elements; buf_stride is
 * a multiple of 32 bytes, so halving it is exact.
 */
module AdmLayout {
  import opened AdmArith
  import opened AdmGrid

  /** buf_stride = ALIGN_CEIL(((w + 1) / 2) * sizeof(int16_t)), in bytes. */
  function BufStride(w: nat): (r: nat)
    ensures r % 32 == 0
    ensures ((w + 1) / 2) * 2 <= r < ((w + 1) / 2) * 2 + 32
  {
    AlignCeil(((w + 1) / 2) * 2)
  }

  /** The row stride of every view in elements, buf_stride / sizeof(int16_t); it holds a half-width row. */
  function PxStride(w: nat): (r: nat)
    ensures 2 * r == BufStride(w)
    ensures (w + 1) / 2 <= r
  {
    BufStride(w) / 2
  }

  /** buf_sz = buf_stride * ((h + 1) / 2), in bytes. */
  function BufSz(w: nat, h: nat): nat {
    BufStride(w) * ((h + 1) / 2)
  }

  /** One tile in elements: (h + 1) / 2 rows of PxStride(w) elements. */
  function TileLen(w: nat, h: nat): (r: nat)
    ensures 2 * r == BufSz(w, h)
  {
    PxStride(w) * ((h + 1) / 2)
  }

  /** av_malloc(buf_sz * 35): the arena in elements. */
  function ArenaLen(w: nat, h: nat): (r: nat)
    ensures 2 * r == BufSz(w, h) * 35
  {
    35 * TileLen(w, h)
  }

  /** `stride = ALIGN_CEIL(w * sizeof(int16_t))`: the length of temp_lo and temp_hi, in elements. */
  function TempLen(w: nat): (r: nat)
    ensures r >= w
  {
    AlignCeil(w * 2) / 2
  }

  /** The views ff_adm_process carves out of data_buf, as element offsets. */
  datatype Layout = Layout(refScale: nat, mainScale: nat,
                           refDwt: BandSet, mainDwt: BandSet,
                           decoupleR: BandSet, decoupleA: BandSet,
                           csfO: BandSet, csfR: BandSet, csfA: BandSet,
                           mta: nat, cmR: BandSet)

  /** The offsets of a layout in the order they are carved; init_dwt_band carves a, h, v, d. */
  function Offsets(lay: Layout): (r: seq<nat>)
    ensures |r| == 35
  {
    [lay.refScale, lay.mainScale]
    + BandOffsets(lay.refDwt) + BandOffsets(lay.mainDwt)
    + BandOffsets(lay.decoupleR) + BandOffsets(lay.decoupleA)
    + BandOffsets(lay.csfO) + BandOffsets(lay.csfR) + BandOffsets(lay.csfA)
    + [lay.mta] + BandOffsets(lay.cmR)
  }

  function BandOffsets(b: BandSet): seq<nat> { [b.a, b.h, b.v, b.d] }

  /** init_dwt_band: band_a, band_h, band_v, band_d at consecutive buf_sz steps from data_top. */
  method InitDwtBand(top: nat, sz: nat) returns (band: BandSet, next: nat)
    ensures band.a == top && band.h == top + sz && band.v == top + 2 * sz && band.d == top + 3 * sz
    ensures next == top + 4 * sz
  {
    band := BandSet(top, 0, 0, 0);
    var p := top + sz;
    band := band.(h := p);
    p := p + sz;
    band := band.(v := p);
    p := p + sz;
    band := band.(d := p);
    next := p + sz;
  }

  /**
   * The carving of ff_adm_process: data_top starts at data_buf and moves by
   * buf_sz per view.  The 35 views are the consecutive tiles 0 .. 34, so they
   * are pairwise disjoint and end exactly at the end of the allocation.
   */
  method Carve(sz: nat) returns (lay: Layout, top: nat)
    ensures lay == Arena(sz) && top == 35 * sz
  {
    top := 0;
    var refScale := top;
    top := top + sz;
    var mainScale := top;
    top := top + sz;
    var refDwt, mainDwt, decoupleR, decoupleA, csfO, csfR, csfA, cmR;
    refDwt, top := InitDwtBand(top, sz);
    assert refDwt == Bands(2, sz) && top == 6 * sz;
    mainDwt, top := InitDwtBand(top, sz);
    assert mainDwt == Bands(6, sz) && top == 10 * sz;
    decoupleR, top := InitDwtBand(top, sz);
    assert decoupleR == Bands(10, sz) && top == 14 * sz;
    decoupleA, top := InitDwtBand(top, sz);
    assert decoupleA == Bands(14, sz) && top == 18 * sz;
    csfO, top := InitDwtBand(top, sz);
    assert csfO == Bands(18, sz) && top == 22 * sz;
    csfR, top := InitDwtBand(top, sz);
    assert csfR == Bands(22, sz) && top == 26 * sz;
    csfA, top := InitDwtBand(top, sz);
    assert csfA == Bands(26, sz) && top == 30 * sz;
    var mta := top;
    top := top + sz;
    cmR, top := InitDwtBand(top, sz);
    assert cmR == Bands(31, sz);
    lay := Layout(refScale, mainScale, refDwt, mainDwt, decoupleR, decoupleA, csfO, csfR, csfA, mta, cmR);
  }

  /** Offsets that are tile by tile k * sz characterise the layout. */
  lemma OffsetsOfTiles(lay: Layout, sz: nat)
    requires BandOffsets(lay.refDwt) == [2 * sz, 3 * sz, 4 * sz, 5 * sz]
    requires BandOffsets(lay.mainDwt) == [6 * sz, 7 * sz, 8 * sz, 9 * sz]
    requires BandOffsets(lay.decoupleR) == [10 * sz, 11 * sz, 12 * sz, 13 * sz]
    requires BandOffsets(lay.decoupleA) == [14 * sz, 15 * sz, 16 * sz, 17 * sz]
    requires BandOffsets(lay.csfO) == [18 * sz, 19 * sz, 20 * sz, 21 * sz]
    requires BandOffsets(lay.csfR) == [22 * sz, 23 * sz, 24 * sz, 25 * sz]
    requires BandOffsets(lay.csfA) == [26 * sz, 27 * sz, 28 * sz, 29 * sz]
    requires BandOffsets(lay.cmR) == [31 * sz, 32 * sz, 33 * sz, 34 * sz]
    requires lay.refScale == 0 && lay.mainScale == sz && lay.mta == 30 * sz
    ensures Offsets(lay) == seq(35, k => k * sz)
  {
  }

  /** The layout a carving with tile length sz produces. */
  function Arena(sz: nat): Layout {
    Layout(0, sz, Bands(2, sz), Bands(6, sz), Bands(10, sz), Bands(14, sz),
           Bands(18, sz), Bands(22, sz), Bands(26, sz), 30 * sz, Bands(31, sz))
  }

  /** The views of Arena(sz) are the tiles 0 .. 34 of length sz, in carving order. */
  lemma ArenaOffsets(sz: nat)
    ensures Offsets(Arena(sz)) == seq(35, k => k * sz)
  {
    OffsetsOfTiles(Arena(sz), sz);
  }

  /** The band set carved from tile k on: a, h, v, d in tiles k, k + 1, k + 2, k + 3. */
  function Bands(k: nat, sz: nat): BandSet {
    BandSet(k * sz, (k + 2) * sz, (k + 1) * sz, (k + 3) * sz)
  }

  // ---------------------------------------------------------------------
  // Cells of tiles
  // ---------------------------------------------------------------------

  /** The view of tile k: offset k * sz, stride px. */
  function TileView(k: nat, sz: nat, px: nat): View { View(k * sz, px) }

  /**
   * Cell (i, j) of tile k, with i below the tile's row count and j below
   * the stride, lies inside tile k.
   */
  lemma CellInTile(k: nat, px: nat, rows: nat, i: nat, j: nat)
    requires i < rows && j < px
    ensures k * (px * rows) <= Pos(TileView(k, px * rows, px), i, j) < (k + 1) * (px * rows)
  {
    MulMono(i + 1, rows, px);
    assert (k + 1) * (px * rows) == k * (px * rows) + rows * px;
  }

  /** Distinct cells of tiles are distinct indices: across tiles by CellInTile, within one by the stride. */
  lemma TileCellsDistinct(k1: nat, k2: nat, px: nat, rows: nat, i1: nat, j1: nat, i2: nat, j2: nat)
    requires i1 < rows && i2 < rows && j1 < px && j2 < px
    requires k1 != k2 || i1 != i2 || j1 != j2
    ensures Pos(TileView(k1, px * rows, px), i1, j1) != Pos(TileView(k2, px * rows, px), i2, j2)
  {
    CellInTile(k1, px, rows, i1, j1);
    CellInTile(k2, px, rows, i2, j2);
    if k1 < k2 {
      MulMono(k1 + 1, k2, px * rows);
    } else if k2 < k1 {
      MulMono(k2 + 1, k1, px * rows);
    } else {
      PosInjective(TileView(k1, px * rows, px), i1, j1, i2, j2);
    }
  }

  /** A window of at most rows x px cells of any of the 35 tiles lies inside the arena. */
  lemma TileFits(k: nat, px: nat, rows0: nat, rows: nat, cols: nat)
    requires k < 35 && rows <= rows0 && cols <= px
    ensures Fits(TileView(k, px * rows0, px), rows, cols, 35 * (px * rows0))
  {
    if rows > 0 && cols > 0 {
      CellInTile(k, px, rows0, rows - 1, cols - 1);
      MulMono(k + 1, 35, px * rows0);
    }
  }

  /** The views of tiles ks[0], ks[1], ... */
  function TileViews(ks: seq<nat>, sz: nat, px: nat): (r: seq<View>)
    ensures |r| == |ks|
  {
    seq(|ks|, q requires 0 <= q < |ks| => TileView(ks[q], sz, px))
  }

  /**
   * A cell-local stage whose sources and destinations are tile views of one
   * arena, with pairwise distinct destination tiles, no source tile among
   * them, and at most rows0 x px cells, has distinct destinations apart
   * from its sources.
   */
  lemma TiledStageApart(st: Stage, srcK: seq<nat>, dstK: seq<nat>, px: nat, rows0: nat)
    requires st.srcs == TileViews(srcK, px * rows0, px) && st.dsts == TileViews(dstK, px * rows0, px)
    requires st.rows <= rows0 && st.cols <= px
    requires forall q1, q2 :: 0 <= q1 < q2 < |dstK| ==> dstK[q1] != dstK[q2]
    requires forall q1, q2 :: 0 <= q1 < |srcK| && 0 <= q2 < |dstK| ==> srcK[q1] != dstK[q2]
    ensures DstsDistinct(st) && SrcsApart(st)
  {
    var sz := px * rows0;
    forall k1: nat, k2: nat, i1: nat, j1: nat, i2: nat, j2: nat |
      k1 < |st.dsts| && k2 < |st.dsts| && i1 < st.rows && i2 < st.rows &&
      j1 < st.cols && j2 < st.cols && (k1 != k2 || i1 != i2 || j1 != j2)
      ensures Pos(st.dsts[k1], i1, j1) != Pos(st.dsts[k2], i2, j2)
    {
      assert st.dsts[k1] == TileView(dstK[k1], sz, px) && st.dsts[k2] == TileView(dstK[k2], sz, px);
      if k1 != k2 {
        if k1 < k2 { assert dstK[k1] != dstK[k2]; } else { assert dstK[k2] != dstK[k1]; }
      }
      TileCellsDistinct(dstK[k1], dstK[k2], px, rows0, i1, j1, i2, j2);
    }
    forall k1: nat, k2: nat, i1: nat, j1: nat, i2: nat, j2: nat |
      k1 < |st.srcs| && k2 < |st.dsts| && i1 < st.rows && i2 < st.rows &&
      j1 < st.cols && j2 < st.cols
      ensures Pos(st.srcs[k1], i1, j1) != Pos(st.dsts[k2], i2, j2)
    {
      assert st.srcs[k1] == TileView(srcK[k1], sz, px) && st.dsts[k2] == TileView(dstK[k2], sz, px);
      assert srcK[k1] != dstK[k2];
      TileCellsDistinct(srcK[k1], dstK[k2], px, rows0, i1, j1, i2, j2);
    }
  }

  /** Every tile view of a stage of at most rows0 x px cells fits the arena. */
  lemma TiledStageFits(vs: seq<View>, ks: seq<nat>, px: nat, rows0: nat, rows: nat, cols: nat)
    requires vs == TileViews(ks, px * rows0, px) && rows <= rows0 && cols <= px
    requires forall q :: 0 <= q < |ks| ==> ks[q] < 35
    ensures AllFit(vs, rows, cols, 35 * (px * rows0))
  {
    forall q | 0 <= q < |vs|
      ensures Fits(vs[q], rows, cols, 35 * (px * rows0))
    {
      TileFits(ks[q], px, rows0, rows, cols);
    }
  }
}
