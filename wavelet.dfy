/**
 * adm_dwt2_8bit / _10bit / _32bit: one level of the separable 4-tap db2
 * wavelet transform.  For each output row i < (h+1)/2, a vertical pass over
 * all w input columns fills the scratch rows temp_lo and temp_hi, then a
 * horizontal pass over temp_lo writes band_a and band_v and one over temp_hi
 * writes band_h and band_d, for columns j < (w+1)/2.  The transform is
 * specified row by row on the arena as it is when that row starts, because
 * at scales 1-3 it reads from the arena it writes.
 */
module AdmWavelet {
  import opened AdmArith
  import opened AdmPixel
  import opened AdmGrid

  type Byte = x: int | 0 <= x < 256

  /**
   * Where the transform reads: a frame plane (uint8 samples, or little-endian
   * uint16 samples when wide) with its linesize in bytes, or an int16 view of
   * the arena.
   */
  datatype Source =
    | PlaneSource(data: seq<Byte>, linesize: nat, wide: bool)
    | ArenaSource(view: View)

  /** The source as a grid of samples: `src_px_stride = src_stride / sizeof(type)`. */
  function SampleView(src: Source): View {
    match src
    case PlaneSource(_, linesize, wide) => View(0, if wide then linesize / 2 else linesize)
    case ArenaSource(v) => v
  }

  /** How many samples the source holds. */
  function SampleCount(src: Source, len: nat): nat {
    match src
    case PlaneSource(data, _, wide) => if wide then |data| / 2 else |data|
    case ArenaSource(_) => len
  }

  /** Every sample (r, c), r < rows, c < cols, exists. */
  predicate SourceFits(src: Source, len: nat, rows: nat, cols: nat) {
    Fits(SampleView(src), rows, cols, SampleCount(src, len))
  }

  /** `src[r * src_px_stride + c]` for the read type of the source. */
  function Sample(src: Source, s: seq<Int16>, rows: nat, cols: nat, r: nat, c: nat): int
    requires SourceFits(src, |s|, rows, cols) && r < rows && c < cols
  {
    PosInSpan(SampleView(src), rows, cols, SampleCount(src, |s|), r, c);
    var p := Pos(SampleView(src), r, c);
    match src
    case PlaneSource(data, _, wide) =>
      if wide then WideIndex(p, |data|); data[2 * p] as int + 256 * data[2 * p + 1] as int else data[p]
    case ArenaSource(_) => s[p]
  }

  /** Sample p of a plane of uint16 samples occupies bytes 2p and 2p + 1. */
  lemma WideIndex(p: nat, n: nat)
    requires p < n / 2
    ensures 2 * p + 1 < n
  {
  }

  /** The four bands, each rows x cols cells at the given stride, lie inside the arena. */
  predicate BandsFit(dst: BandSet, stride: nat, rows: nat, cols: nat, len: nat) {
    && Fits(View(dst.a, stride), rows, cols, len) && Fits(View(dst.v, stride), rows, cols, len)
    && Fits(View(dst.h, stride), rows, cols, len) && Fits(View(dst.d, stride), rows, cols, len)
  }

  /** The shape the transform needs: w, h >= 2, the source and the four bands in range. */
  predicate DwtShape(src: Source, len: nat, dst: BandSet, stride: nat, w: nat, h: nat) {
    && w >= 2 && h >= 2
    && SourceFits(src, len, h, w)
    && BandsFit(dst, stride, (h + 1) / 2, (w + 1) / 2, len)
  }


  // ---------------------------------------------------------------------
  // The vertical pass
  // ---------------------------------------------------------------------

  /** The four source samples of column j under output row i: rows 2i-1 .. 2i+2, reflected. */
  function ColumnTaps(src: Source, s: seq<Int16>, w: nat, h: nat, i: nat, j: nat): (r: seq<int>)
    requires h >= 2 && SourceFits(src, |s|, h, w) && i < (h + 1) / 2 && j < w
    ensures |r| == 4
  {
    seq(4, t requires 0 <= t < 4 => Sample(src, s, h, w, Reflect(2 * i - 1 + t, h), j))
  }

  /** temp[j] = (sum of the vertical taps) >> 15, stored as int16. */
  function TempValue(coeffs: seq<int>, src: Source, s: seq<Int16>, w: nat, h: nat, i: nat, j: nat): Int16
    requires |coeffs| == 4 && h >= 2 && SourceFits(src, |s|, h, w) && i < (h + 1) / 2 && j < w
  {
    ToInt16(Shr15(Taps(coeffs, ColumnTaps(src, s, w, h, i, j), 4)))
  }

  /** The scratch row of output row i: temp_lo for FilterLo, temp_hi for FilterHi. */
  function TempRow(coeffs: seq<int>, src: Source, s: seq<Int16>, w: nat, h: nat, i: nat): (r: seq<Int16>)
    requires |coeffs| == 4 && h >= 2 && SourceFits(src, |s|, h, w) && i < (h + 1) / 2
    ensures |r| == w
  {
    TempPrefix(coeffs, src, s, w, h, i, w)
  }

  /** Columns 0 .. n-1 of a scratch row, in the order the vertical pass fills them. */
  function TempPrefix(coeffs: seq<int>, src: Source, s: seq<Int16>, w: nat, h: nat, i: nat, n: nat): (r: seq<Int16>)
    requires |coeffs| == 4 && h >= 2 && SourceFits(src, |s|, h, w) && i < (h + 1) / 2 && n <= w
    ensures |r| == n
  {
    if n == 0 then [] else TempPrefix(coeffs, src, s, w, h, i, n - 1) + [TempValue(coeffs, src, s, w, h, i, n - 1)]
  }

  /** Scratch column j holds the vertical sum of column j. */
  lemma {:induction false} TempPrefixAt(coeffs: seq<int>, src: Source, s: seq<Int16>, w: nat, h: nat, i: nat, n: nat, j: nat)
    requires |coeffs| == 4 && h >= 2 && SourceFits(src, |s|, h, w) && i < (h + 1) / 2 && j < n <= w
    ensures TempPrefix(coeffs, src, s, w, h, i, n)[j] == TempValue(coeffs, src, s, w, h, i, j)
  {
    if j < n - 1 {
      TempPrefixAt(coeffs, src, s, w, h, i, n - 1, j);
    }
  }

  // ---------------------------------------------------------------------
  // The horizontal passes
  // ---------------------------------------------------------------------

  /** The four scratch values under output column j: columns 2j-1 .. 2j+2, reflected. */
  function RowTaps(temp: seq<Int16>, w: nat, j: nat): (r: seq<int>)
    requires w >= 2 && |temp| >= w && j < (w + 1) / 2
    ensures |r| == 4
  {
    seq(4, t requires 0 <= t < 4 => temp[Reflect(2 * j - 1 + t, w)] as int)
  }

  /** A band value: (sum of the horizontal taps) >> 15, stored as int16. */
  function BandValue(coeffs: seq<int>, temp: seq<Int16>, w: nat, j: nat): Int16
    requires |coeffs| == 4 && w >= 2 && |temp| >= w && j < (w + 1) / 2
  {
    ToInt16(Shr15(Taps(coeffs, RowTaps(temp, w, j), 4)))
  }

  /** The (w+1)/2 values one filter produces from a scratch row. */
  function BandRow(coeffs: seq<int>, temp: seq<Int16>, w: nat): (r: seq<Int16>)
    requires |coeffs| == 4 && w >= 2 && |temp| >= w
    ensures |r| == (w + 1) / 2
  {
    BandPrefix(coeffs, temp, w, (w + 1) / 2)
  }

  /** The first n of them. */
  function BandPrefix(coeffs: seq<int>, temp: seq<Int16>, w: nat, n: nat): (r: seq<Int16>)
    requires |coeffs| == 4 && w >= 2 && |temp| >= w && n <= (w + 1) / 2
    ensures |r| == n
  {
    if n == 0 then [] else BandPrefix(coeffs, temp, w, n - 1) + [BandValue(coeffs, temp, w, n - 1)]
  }

  /** Band column j holds the horizontal sum of column j. */
  lemma {:induction false} BandPrefixAt(coeffs: seq<int>, temp: seq<Int16>, w: nat, n: nat, j: nat)
    requires |coeffs| == 4 && w >= 2 && |temp| >= w && j < n <= (w + 1) / 2
    ensures BandPrefix(coeffs, temp, w, n)[j] == BandValue(coeffs, temp, w, j)
  {
    if j < n - 1 {
      BandPrefixAt(coeffs, temp, w, n - 1, j);
    }
  }

  /**
   * The indices one horizontal pass over row i stores to, in order: per
   * column c, cell (i, c) of band lo, then cell (i, c) of band hi.
   */
  function PassCells(lo: View, hi: View, i: nat, cols: nat): (r: seq<nat>)
    ensures |r| == 2 * cols
  {
    seq(2 * cols, k requires 0 <= k < 2 * cols => Pos(if k % 2 == 0 then lo else hi, i, k / 2))
  }

  /** The values one horizontal pass stores, in the order of PassCells. */
  function PassVals(los: seq<Int16>, his: seq<Int16>, cols: nat): (r: seq<Int16>)
    requires cols <= |los| && cols <= |his|
    ensures |r| == 2 * cols
  {
    seq(2 * cols, k requires 0 <= k < 2 * cols => if k % 2 == 0 then los[k / 2] else his[k / 2])
  }

  /** Stores 2j and 2j + 1 of a pass are column j of band lo and of band hi. */
  lemma PassColumn(lo: View, hi: View, i: nat, cols: nat, los: seq<Int16>, his: seq<Int16>, j: nat)
    requires j < cols && cols <= |los| && cols <= |his|
    ensures PassCells(lo, hi, i, cols)[2 * j] == Pos(lo, i, j)
    ensures PassCells(lo, hi, i, cols)[2 * j + 1] == Pos(hi, i, j)
    ensures PassVals(los, his, cols)[2 * j] == los[j]
    ensures PassVals(los, his, cols)[2 * j + 1] == his[j]
  {
  }

  lemma PassCellsFit(lo: View, hi: View, rows: nat, cols: nat, i: nat, len: nat)
    requires i < rows && Fits(lo, rows, cols, len) && Fits(hi, rows, cols, len)
    ensures forall k :: 0 <= k < 2 * cols ==> PassCells(lo, hi, i, cols)[k] < len
  {
    forall k | 0 <= k < 2 * cols
      ensures PassCells(lo, hi, i, cols)[k] < len
    {
      PosInSpan(if k % 2 == 0 then lo else hi, rows, cols, len, i, k / 2);
    }
  }

  /** One horizontal pass over row i: los into band lo and his into band hi, column by column. */
  function Pass(s: seq<Int16>, lo: View, hi: View, rows: nat, cols: nat, i: nat,
                los: seq<Int16>, his: seq<Int16>): (r: seq<Int16>)
    requires i < rows && cols <= |los| && cols <= |his|
    requires Fits(lo, rows, cols, |s|) && Fits(hi, rows, cols, |s|)
    ensures |r| == |s|
  {
    PassPrefix(s, lo, hi, rows, cols, i, los, his, cols)
  }

  /** Columns 0 .. n-1 of a pass. */
  function PassPrefix(s: seq<Int16>, lo: View, hi: View, rows: nat, cols: nat, i: nat,
                      los: seq<Int16>, his: seq<Int16>, n: nat): (r: seq<Int16>)
    requires i < rows && n <= cols && cols <= |los| && cols <= |his|
    requires Fits(lo, rows, cols, |s|) && Fits(hi, rows, cols, |s|)
    ensures |r| == |s|
  {
    PassCellsFit(lo, hi, rows, cols, i, |s|);
    Scatter(s, PassCells(lo, hi, i, cols), PassVals(los, his, cols), 2 * n)
  }

  /** Column n of a pass stores los[n] into band lo, then his[n] into band hi. */
  lemma PassStep(s: seq<Int16>, lo: View, hi: View, rows: nat, cols: nat, i: nat,
                 los: seq<Int16>, his: seq<Int16>, n: nat)
    requires i < rows && n < cols && cols <= |los| && cols <= |his|
    requires Fits(lo, rows, cols, |s|) && Fits(hi, rows, cols, |s|)
    ensures Pos(lo, i, n) < |s| && Pos(hi, i, n) < |s|
    ensures PassPrefix(s, lo, hi, rows, cols, i, los, his, n + 1)
         == PassPrefix(s, lo, hi, rows, cols, i, los, his, n)[Pos(lo, i, n) := los[n]][Pos(hi, i, n) := his[n]]
  {
    PassCellsFit(lo, hi, rows, cols, i, |s|);
    PassColumn(lo, hi, i, cols, los, his, n);
    var ps, vs := PassCells(lo, hi, i, cols), PassVals(los, his, cols);
    var t0 := Scatter(s, ps, vs, 2 * n);
    var t1 := Scatter(s, ps, vs, 2 * n + 1);
    assert t1 == t0[ps[2 * n] := vs[2 * n]];
    assert Scatter(s, ps, vs, 2 * n + 2) == t1[ps[2 * n + 1] := vs[2 * n + 1]];
  }

  /** The two horizontal passes of row i: (al, ah) into bands a and v, then (hl, hh) into h and d. */
  function RowPasses(s: seq<Int16>, dst: BandSet, stride: nat, rows: nat, cols: nat, i: nat,
                     al: seq<Int16>, ah: seq<Int16>, hl: seq<Int16>, hh: seq<Int16>): (r: seq<Int16>)
    requires i < rows && BandsFit(dst, stride, rows, cols, |s|)
    requires cols <= |al| && cols <= |ah| && cols <= |hl| && cols <= |hh|
    ensures |r| == |s|
  {
    var s1 := Pass(s, View(dst.a, stride), View(dst.v, stride), rows, cols, i, al, ah);
    Pass(s1, View(dst.h, stride), View(dst.d, stride), rows, cols, i, hl, hh)
  }

  /** Output row i: the vertical pass on the current arena, then the lo and hi horizontal passes. */
  function DwtRow(src: Source, s: seq<Int16>, dst: BandSet, stride: nat, w: nat, h: nat, i: nat): (r: seq<Int16>)
    requires DwtShape(src, |s|, dst, stride, w, h) && i < (h + 1) / 2
    ensures |r| == |s|
  {
    var tl := TempRow(FilterLo, src, s, w, h, i);
    var th := TempRow(FilterHi, src, s, w, h, i);
    RowPasses(s, dst, stride, (h + 1) / 2, (w + 1) / 2, i,
              BandRow(FilterLo, tl, w), BandRow(FilterHi, tl, w), BandRow(FilterLo, th, w), BandRow(FilterHi, th, w))
  }

  /** Output rows 0 .. m-1, in order. */
  function DwtRows(src: Source, s: seq<Int16>, dst: BandSet, stride: nat, w: nat, h: nat, m: nat): (r: seq<Int16>)
    requires DwtShape(src, |s|, dst, stride, w, h) && m <= (h + 1) / 2
    ensures |r| == |s|
  {
    if m == 0 then s else DwtRow(src, DwtRows(src, s, dst, stride, w, h, m - 1), dst, stride, w, h, m - 1)
  }

  /** The arena after the whole transform. */
  function Dwt(src: Source, s: seq<Int16>, dst: BandSet, stride: nat, w: nat, h: nat): (r: seq<Int16>)
    requires DwtShape(src, |s|, dst, stride, w, h)
    ensures |r| == |s|
  {
    DwtRows(src, s, dst, stride, w, h, (h + 1) / 2)
  }

  /** The scratch row left behind by output rows 0 .. m-1: that of row m - 1. */
  function TempAfter(coeffs: seq<int>, src: Source, s: seq<Int16>, dst: BandSet, stride: nat, w: nat, h: nat, m: nat): (r: seq<Int16>)
    requires |coeffs| == 4 && DwtShape(src, |s|, dst, stride, w, h) && 1 <= m <= (h + 1) / 2
    ensures |r| == w
  {
    TempRow(coeffs, src, DwtRows(src, s, dst, stride, w, h, m - 1), w, h, m - 1)
  }

  // ---------------------------------------------------------------------
  // The transform as loops
  // ---------------------------------------------------------------------

  /** `img_coeff = src[src_i * src_px_stride + src_j]`. */
  method LoadSample(src: Source, buf: array<Int16>, rows: nat, cols: nat, r: nat, c: nat) returns (x: int)
    requires SourceFits(src, buf.Length, rows, cols) && r < rows && c < cols
    ensures x == Sample(src, buf[..], rows, cols, r, c)
  {
    PosInSpan(SampleView(src), rows, cols, SampleCount(src, buf.Length), r, c);
    var p := Pos(SampleView(src), r, c);
    match src {
      case PlaneSource(data, _, wide) =>
        if wide {
          WideIndex(p, |data|);
          x := data[2 * p] as int + 256 * data[2 * p + 1] as int;
        } else {
          x := data[p];
        }
      case ArenaSource(_) =>
        x := buf[p];
    }
  }

  /** The two vertical 4-tap sums of column j under output row i. */
  method ColumnSums(src: Source, buf: array<Int16>, w: nat, h: nat, i: nat, j: nat) returns (sumLo: int, sumHi: int)
    requires h >= 2 && SourceFits(src, buf.Length, h, w) && i < (h + 1) / 2 && j < w
    ensures sumLo == Taps(FilterLo, ColumnTaps(src, buf[..], w, h, i, j), 4)
    ensures sumHi == Taps(FilterHi, ColumnTaps(src, buf[..], w, h, i, j), 4)
  {
    ghost var taps := ColumnTaps(src, buf[..], w, h, i, j);
    sumLo, sumHi := 0, 0;
    var t := 0;
    while t < 4
      invariant 0 <= t <= 4
      invariant sumLo == Taps(FilterLo, taps, t) && sumHi == Taps(FilterHi, taps, t)
    {
      var x := LoadSample(src, buf, h, w, Reflect(2 * i - 1 + t, h), j);
      assert x == taps[t];
      sumLo := sumLo + FilterLo[t] * x;
      sumHi := sumHi + FilterHi[t] * x;
      t := t + 1;
    }
  }

  /** Vertical pass of output row i into temp_lo and temp_hi. */
  method VerticalPass(src: Source, buf: array<Int16>, w: nat, h: nat, i: nat, tempLo: array<Int16>, tempHi: array<Int16>)
    requires h >= 2 && SourceFits(src, buf.Length, h, w) && i < (h + 1) / 2
    requires tempLo.Length >= w && tempHi.Length >= w
    requires tempLo != tempHi && buf != tempLo && buf != tempHi
    modifies tempLo, tempHi
    ensures tempLo[..w] == TempRow(FilterLo, src, buf[..], w, h, i)
    ensures tempHi[..w] == TempRow(FilterHi, src, buf[..], w, h, i)
    ensures tempLo[w..] == old(tempLo[w..]) && tempHi[w..] == old(tempHi[w..])
  {
    var j := 0;
    while j < w
      invariant 0 <= j <= w
      invariant tempLo[..j] == TempPrefix(FilterLo, src, buf[..], w, h, i, j)
      invariant tempHi[..j] == TempPrefix(FilterHi, src, buf[..], w, h, i, j)
      invariant tempLo[w..] == old(tempLo[w..]) && tempHi[w..] == old(tempHi[w..])
    {
      var sumLo, sumHi := ColumnSums(src, buf, w, h, i, j);
      tempLo[j] := ToInt16(Shr15(sumLo));
      tempHi[j] := ToInt16(Shr15(sumHi));
      assert tempLo[..j + 1] == tempLo[..j] + [tempLo[j]];
      assert tempHi[..j + 1] == tempHi[..j] + [tempHi[j]];
      j := j + 1;
    }
  }

  /** The two horizontal 4-tap sums under output column j of a scratch row. */
  method RowSums(temp: array<Int16>, w: nat, j: nat) returns (sumLo: int, sumHi: int)
    requires w >= 2 && temp.Length >= w && j < (w + 1) / 2
    ensures sumLo == Taps(FilterLo, RowTaps(temp[..w], w, j), 4)
    ensures sumHi == Taps(FilterHi, RowTaps(temp[..w], w, j), 4)
  {
    ghost var taps := RowTaps(temp[..w], w, j);
    sumLo, sumHi := 0, 0;
    var t := 0;
    while t < 4
      invariant 0 <= t <= 4
      invariant sumLo == Taps(FilterLo, taps, t) && sumHi == Taps(FilterHi, taps, t)
    {
      var x := temp[Reflect(2 * j - 1 + t, w)];
      assert x == taps[t];
      sumLo := sumLo + FilterLo[t] * x;
      sumHi := sumHi + FilterHi[t] * x;
      t := t + 1;
    }
  }

  /** One horizontal pass of output row i over a scratch row: lo into band lo, hi into band hi. */
  method HorizontalPass(buf: array<Int16>, lo: View, hi: View, rows: nat, i: nat, temp: array<Int16>, w: nat)
    requires w >= 2 && temp.Length >= w && i < rows && temp != buf
    requires Fits(lo, rows, (w + 1) / 2, buf.Length) && Fits(hi, rows, (w + 1) / 2, buf.Length)
    modifies buf
    ensures buf[..] == Pass(old(buf[..]), lo, hi, rows, (w + 1) / 2, i,
                            BandRow(FilterLo, temp[..w], w), BandRow(FilterHi, temp[..w], w))
  {
    ghost var s0 := buf[..];
    var cols := (w + 1) / 2;
    ghost var los, his := BandRow(FilterLo, temp[..w], w), BandRow(FilterHi, temp[..w], w);
    var j := 0;
    while j < cols
      invariant 0 <= j <= cols
      invariant buf[..] == PassPrefix(s0, lo, hi, rows, cols, i, los, his, j)
    {
      PassStep(s0, lo, hi, rows, cols, i, los, his, j);
      BandPrefixAt(FilterLo, temp[..w], w, cols, j);
      BandPrefixAt(FilterHi, temp[..w], w, cols, j);
      StoreColumn(buf, lo, hi, rows, i, temp, w, j);
      j := j + 1;
    }
  }

  /** Column j of a horizontal pass: the lo sum into band lo, then the hi sum into band hi. */
  method StoreColumn(buf: array<Int16>, lo: View, hi: View, rows: nat, i: nat, temp: array<Int16>, w: nat, j: nat)
    requires w >= 2 && temp.Length >= w && i < rows && temp != buf && j < (w + 1) / 2
    requires Fits(lo, rows, (w + 1) / 2, buf.Length) && Fits(hi, rows, (w + 1) / 2, buf.Length)
    modifies buf
    ensures Pos(lo, i, j) < buf.Length && Pos(hi, i, j) < buf.Length
    ensures buf[..] == old(buf[..])[Pos(lo, i, j) := BandValue(FilterLo, temp[..w], w, j)]
                                   [Pos(hi, i, j) := BandValue(FilterHi, temp[..w], w, j)]
  {
    var sumLo, sumHi := RowSums(temp, w, j);
    PosInSpan(lo, rows, (w + 1) / 2, buf.Length, i, j);
    PosInSpan(hi, rows, (w + 1) / 2, buf.Length, i, j);
    buf[Pos(lo, i, j)] := ToInt16(Shr15(sumLo));
    buf[Pos(hi, i, j)] := ToInt16(Shr15(sumHi));
  }

  /** Output row i: vertical pass, then the lo and the hi horizontal pass. */
  method TransformRow(src: Source, buf: array<Int16>, dst: BandSet, stride: nat, w: nat, h: nat, i: nat,
                      tempLo: array<Int16>, tempHi: array<Int16>)
    requires DwtShape(src, buf.Length, dst, stride, w, h) && i < (h + 1) / 2
    requires tempLo.Length >= w && tempHi.Length >= w
    requires buf != tempLo && buf != tempHi && tempLo != tempHi
    modifies buf, tempLo, tempHi
    ensures buf[..] == DwtRow(src, old(buf[..]), dst, stride, w, h, i)
    ensures tempLo[..w] == TempRow(FilterLo, src, old(buf[..]), w, h, i)
    ensures tempHi[..w] == TempRow(FilterHi, src, old(buf[..]), w, h, i)
    ensures tempLo[w..] == old(tempLo[w..]) && tempHi[w..] == old(tempHi[w..])
  {
    ghost var si := buf[..];
    var rows := (h + 1) / 2;
    VerticalPass(src, buf, w, h, i, tempLo, tempHi);
    HorizontalPass(buf, View(dst.a, stride), View(dst.v, stride), rows, i, tempLo, w);
    HorizontalPass(buf, View(dst.h, stride), View(dst.d, stride), rows, i, tempHi, w);
  }

  /**
   * adm_dwt2_*bit: w = s->width and h = s->height are the caller's frame
   * size at every scale; temp_lo and temp_hi are the state's scratch rows.
   */
  method Transform(src: Source, buf: array<Int16>, dst: BandSet, stride: nat, w: nat, h: nat,
                   tempLo: array<Int16>, tempHi: array<Int16>)
    requires DwtShape(src, buf.Length, dst, stride, w, h)
    requires tempLo.Length >= w && tempHi.Length >= w
    requires buf != tempLo && buf != tempHi && tempLo != tempHi
    modifies buf, tempLo, tempHi
    ensures buf[..] == Dwt(src, old(buf[..]), dst, stride, w, h)
    ensures KeptOutside(buf[..], old(buf[..]), dst, stride, (h + 1) / 2, (w + 1) / 2)
    ensures BandsDistinct(dst, stride, (h + 1) / 2, (w + 1) / 2) && SourceApart(src, dst, stride, w, h) ==>
            RowsHold(buf[..], src, old(buf[..]), dst, stride, w, h, (h + 1) / 2)
    ensures tempLo[..w] == TempAfter(FilterLo, src, old(buf[..]), dst, stride, w, h, (h + 1) / 2)
    ensures tempHi[..w] == TempAfter(FilterHi, src, old(buf[..]), dst, stride, w, h, (h + 1) / 2)
    ensures tempLo[w..] == old(tempLo[w..]) && tempHi[w..] == old(tempHi[w..])
  {
    ghost var s0 := buf[..];
    ghost var lo0, hi0 := tempLo[w..], tempHi[w..];
    var rows := (h + 1) / 2;
    var i := 0;
    while i < rows
      invariant 0 <= i <= rows
      invariant buf[..] == DwtRows(src, s0, dst, stride, w, h, i)
      invariant KeptOutside(buf[..], s0, dst, stride, i, (w + 1) / 2)
      invariant BandsDistinct(dst, stride, rows, (w + 1) / 2) && SourceApart(src, dst, stride, w, h) ==>
                RowsHold(buf[..], src, s0, dst, stride, w, h, i)
      invariant i > 0 ==> tempLo[..w] == TempAfter(FilterLo, src, s0, dst, stride, w, h, i)
      invariant i > 0 ==> tempHi[..w] == TempAfter(FilterHi, src, s0, dst, stride, w, h, i)
      invariant tempLo[w..] == lo0 && tempHi[w..] == hi0
    {
      RowStep(src, buf[..], s0, dst, stride, w, h, i);
      TransformRow(src, buf, dst, stride, w, h, i, tempLo, tempHi);
      i := i + 1;
    }
  }

  // ---------------------------------------------------------------------
  // What the transform writes
  // ---------------------------------------------------------------------

  /** A pass over row i leaves alone every index that is none of its lo and hi cells. */
  lemma PassFrame(s: seq<Int16>, lo: View, hi: View, rows: nat, cols: nat, i: nat,
                  los: seq<Int16>, his: seq<Int16>, p: nat)
    requires i < rows && cols <= |los| && cols <= |his|
    requires Fits(lo, rows, cols, |s|) && Fits(hi, rows, cols, |s|) && p < |s|
    requires forall c :: 0 <= c < cols ==> Pos(lo, i, c) != p && Pos(hi, i, c) != p
    ensures Pass(s, lo, hi, rows, cols, i, los, his)[p] == s[p]
  {
    PassCellsFit(lo, hi, rows, cols, i, |s|);
    var ps := PassCells(lo, hi, i, cols);
    forall k | 0 <= k < 2 * cols
      ensures ps[k] != p
    {
      var c := k / 2;
      assert ps[k] == Pos(lo, i, c) || ps[k] == Pos(hi, i, c);
    }
    ScatterFrame(s, ps, PassVals(los, his, cols), 2 * cols, p);
  }

  /** The cells one pass writes, lo and hi over columns < n of row i, are pairwise distinct. */
  ghost predicate PassDistinct(lo: View, hi: View, i: nat, n: nat) {
    forall c1: nat, c2: nat :: c1 < n && c2 < n ==>
      Pos(lo, i, c1) != Pos(hi, i, c2) &&
      (c1 != c2 ==> Pos(lo, i, c1) != Pos(lo, i, c2) && Pos(hi, i, c1) != Pos(hi, i, c2))
  }

  /** With distinct cells, a pass leaves los[j] in cell (i, j) of lo and his[j] in that of hi. */
  lemma PassValue(s: seq<Int16>, lo: View, hi: View, rows: nat, cols: nat, i: nat,
                  los: seq<Int16>, his: seq<Int16>, j: nat)
    requires i < rows && j < cols && cols <= |los| && cols <= |his|
    requires Fits(lo, rows, cols, |s|) && Fits(hi, rows, cols, |s|)
    requires PassDistinct(lo, hi, i, cols)
    ensures Pos(lo, i, j) < |s| && Pos(hi, i, j) < |s|
    ensures Pass(s, lo, hi, rows, cols, i, los, his)[Pos(lo, i, j)] == los[j]
    ensures Pass(s, lo, hi, rows, cols, i, los, his)[Pos(hi, i, j)] == his[j]
  {
    PassCellsFit(lo, hi, rows, cols, i, |s|);
    var ps, vs := PassCells(lo, hi, i, cols), PassVals(los, his, cols);
    PassColumn(lo, hi, i, cols, los, his, j);
    LaterStoresMiss(lo, hi, i, cols, 2 * j);
    LaterStoresMiss(lo, hi, i, cols, 2 * j + 1);
    ScatterValue(s, ps, vs, 2 * cols, 2 * j);
    ScatterValue(s, ps, vs, 2 * cols, 2 * j + 1);
  }

  /** With distinct cells, no store after the k-th of a pass hits the k-th store's index. */
  lemma LaterStoresMiss(lo: View, hi: View, i: nat, cols: nat, k: nat)
    requires PassDistinct(lo, hi, i, cols) && k < 2 * cols
    ensures forall q :: k < q < 2 * cols ==> PassCells(lo, hi, i, cols)[q] != PassCells(lo, hi, i, cols)[k]
  {
    var ps := PassCells(lo, hi, i, cols);
    forall q | k < q < 2 * cols
      ensures ps[q] != ps[k]
    {
      assert ps[q] == Pos(if q % 2 == 0 then lo else hi, i, q / 2);
      assert ps[k] == Pos(if k % 2 == 0 then lo else hi, i, k / 2);
    }
  }

  /** Index p is none of the four band cells (i, c). */
  predicate NotBandCell(dst: BandSet, stride: nat, i: nat, c: nat, p: nat) {
    && Pos(View(dst.a, stride), i, c) != p && Pos(View(dst.v, stride), i, c) != p
    && Pos(View(dst.h, stride), i, c) != p && Pos(View(dst.d, stride), i, c) != p
  }

  lemma RowPassesFrame(s: seq<Int16>, dst: BandSet, stride: nat, rows: nat, cols: nat, i: nat,
                       al: seq<Int16>, ah: seq<Int16>, hl: seq<Int16>, hh: seq<Int16>, p: nat)
    requires i < rows && BandsFit(dst, stride, rows, cols, |s|)
    requires cols <= |al| && cols <= |ah| && cols <= |hl| && cols <= |hh|
    requires p < |s| && forall c: nat :: c < cols ==> NotBandCell(dst, stride, i, c, p)
    ensures RowPasses(s, dst, stride, rows, cols, i, al, ah, hl, hh)[p] == s[p]
  {
    var A, V, H, D := View(dst.a, stride), View(dst.v, stride), View(dst.h, stride), View(dst.d, stride);
    forall c | 0 <= c < cols
      ensures Pos(A, i, c) != p && Pos(V, i, c) != p && Pos(H, i, c) != p && Pos(D, i, c) != p
    {
      assert NotBandCell(dst, stride, i, c, p);
    }
    var s1 := Pass(s, A, V, rows, cols, i, al, ah);
    PassFrame(s, A, V, rows, cols, i, al, ah, p);
    PassFrame(s1, H, D, rows, cols, i, hl, hh, p);
  }

  /** Band b in the order the four bands are written per column: a, v (lo pass), h, d (hi pass). */
  function BandView(dst: BandSet, stride: nat, b: nat): View {
    View(if b == 0 then dst.a else if b == 1 then dst.v else if b == 2 then dst.h else dst.d, stride)
  }

  /** No two band cells of the output region coincide. */
  ghost predicate BandsDistinct(dst: BandSet, stride: nat, rows: nat, cols: nat) {
    forall b1: nat, b2: nat, i1: nat, j1: nat, i2: nat, j2: nat ::
      b1 < 4 && b2 < 4 && i1 < rows && i2 < rows && j1 < cols && j2 < cols &&
      (b1 != b2 || i1 != i2 || j1 != j2) ==>
      Pos(BandView(dst, stride, b1), i1, j1) != Pos(BandView(dst, stride, b2), i2, j2)
  }

  /** With distinct band cells, row i leaves al[j], ah[j], hl[j], hh[j] in cell (i, j) of a, v, h, d. */
  lemma RowPassesValue(s: seq<Int16>, dst: BandSet, stride: nat, rows: nat, cols: nat, i: nat,
                       al: seq<Int16>, ah: seq<Int16>, hl: seq<Int16>, hh: seq<Int16>, j: nat)
    requires i < rows && j < cols && BandsFit(dst, stride, rows, cols, |s|)
    requires cols <= |al| && cols <= |ah| && cols <= |hl| && cols <= |hh|
    requires BandsDistinct(dst, stride, rows, cols)
    ensures Pos(View(dst.a, stride), i, j) < |s| && Pos(View(dst.v, stride), i, j) < |s|
    ensures Pos(View(dst.h, stride), i, j) < |s| && Pos(View(dst.d, stride), i, j) < |s|
    ensures var r := RowPasses(s, dst, stride, rows, cols, i, al, ah, hl, hh);
      && r[Pos(View(dst.a, stride), i, j)] == al[j] && r[Pos(View(dst.v, stride), i, j)] == ah[j]
      && r[Pos(View(dst.h, stride), i, j)] == hl[j] && r[Pos(View(dst.d, stride), i, j)] == hh[j]
  {
    var A, V, H, D := View(dst.a, stride), View(dst.v, stride), View(dst.h, stride), View(dst.d, stride);
    assert A == BandView(dst, stride, 0) && V == BandView(dst, stride, 1);
    assert H == BandView(dst, stride, 2) && D == BandView(dst, stride, 3);
    assert PassDistinct(A, V, i, cols) by {
      forall c1: nat, c2: nat | c1 < cols && c2 < cols
        ensures Pos(A, i, c1) != Pos(V, i, c2)
        ensures c1 != c2 ==> Pos(A, i, c1) != Pos(A, i, c2) && Pos(V, i, c1) != Pos(V, i, c2)
      {
        assert Pos(BandView(dst, stride, 0), i, c1) != Pos(BandView(dst, stride, 1), i, c2);
      }
    }
    assert PassDistinct(H, D, i, cols) by {
      forall c1: nat, c2: nat | c1 < cols && c2 < cols
        ensures Pos(H, i, c1) != Pos(D, i, c2)
        ensures c1 != c2 ==> Pos(H, i, c1) != Pos(H, i, c2) && Pos(D, i, c1) != Pos(D, i, c2)
      {
        assert Pos(BandView(dst, stride, 2), i, c1) != Pos(BandView(dst, stride, 3), i, c2);
      }
    }
    PassValue(s, A, V, rows, cols, i, al, ah, j);
    var s1 := Pass(s, A, V, rows, cols, i, al, ah);
    PassValue(s1, H, D, rows, cols, i, hl, hh, j);
    forall c: nat | c < cols
      ensures Pos(H, i, c) != Pos(A, i, j) && Pos(D, i, c) != Pos(A, i, j)
      ensures Pos(H, i, c) != Pos(V, i, j) && Pos(D, i, c) != Pos(V, i, j)
    {
      assert Pos(BandView(dst, stride, 2), i, c) != Pos(BandView(dst, stride, 0), i, j);
      assert Pos(BandView(dst, stride, 3), i, c) != Pos(BandView(dst, stride, 0), i, j);
      assert Pos(BandView(dst, stride, 2), i, c) != Pos(BandView(dst, stride, 1), i, j);
      assert Pos(BandView(dst, stride, 3), i, c) != Pos(BandView(dst, stride, 1), i, j);
    }
    PassFrame(s1, H, D, rows, cols, i, hl, hh, Pos(A, i, j));
    PassFrame(s1, H, D, rows, cols, i, hl, hh, Pos(V, i, j));
  }

  /** Output row i leaves index p alone when p is none of its band cells. */
  lemma DwtRowFrame(src: Source, t: seq<Int16>, dst: BandSet, stride: nat, w: nat, h: nat, i: nat, p: nat)
    requires DwtShape(src, |t|, dst, stride, w, h) && i < (h + 1) / 2 && p < |t|
    requires forall c: nat :: c < (w + 1) / 2 ==> NotBandCell(dst, stride, i, c, p)
    ensures DwtRow(src, t, dst, stride, w, h, i)[p] == t[p]
  {
    var tl := TempRow(FilterLo, src, t, w, h, i);
    var th := TempRow(FilterHi, src, t, w, h, i);
    RowPassesFrame(t, dst, stride, (h + 1) / 2, (w + 1) / 2, i,
                   BandRow(FilterLo, tl, w), BandRow(FilterHi, tl, w), BandRow(FilterLo, th, w), BandRow(FilterHi, th, w), p);
  }

  /** No sample the transform reads from the arena is a band cell it writes. */
  ghost predicate SourceApart(src: Source, dst: BandSet, stride: nat, w: nat, h: nat) {
    src.ArenaSource? ==>
      forall r: nat, c: nat, i: nat, j: nat :: r < h && c < w && i < (h + 1) / 2 && j < (w + 1) / 2 ==>
        NotBandCell(dst, stride, i, j, Pos(src.view, r, c))
  }

  /** The scratch rows only depend on the samples. */
  lemma {:induction false} TempRowOfSamples(coeffs: seq<int>, src: Source, s: seq<Int16>, s': seq<Int16>, w: nat, h: nat, i: nat, n: nat)
    requires |coeffs| == 4 && h >= 2 && |s| == |s'| && SourceFits(src, |s|, h, w) && i < (h + 1) / 2 && n <= w
    requires forall r: nat, c: nat :: r < h && c < w ==> Sample(src, s, h, w, r, c) == Sample(src, s', h, w, r, c)
    ensures TempPrefix(coeffs, src, s, w, h, i, n) == TempPrefix(coeffs, src, s', w, h, i, n)
  {
    if n > 0 {
      TempRowOfSamples(coeffs, src, s, s', w, h, i, n - 1);
      var j := n - 1;
      var a, b := ColumnTaps(src, s, w, h, i, j), ColumnTaps(src, s', w, h, i, j);
      forall t | 0 <= t < 4
        ensures a[t] == b[t]
      {
        assert a[t] == Sample(src, s, h, w, Reflect(2 * i - 1 + t, h), j);
      }
      assert a == b;
    }
  }

  /** Later rows miss every band cell of row i. */
  lemma LaterRowsMiss(dst: BandSet, stride: nat, rows: nat, cols: nat, i: nat, j: nat, p: nat)
    requires BandsDistinct(dst, stride, rows, cols) && i < rows && j < cols
    requires p == Pos(View(dst.a, stride), i, j) || p == Pos(View(dst.v, stride), i, j) ||
             p == Pos(View(dst.h, stride), i, j) || p == Pos(View(dst.d, stride), i, j)
    ensures forall r: nat, c: nat :: i + 1 <= r < rows && c < cols ==> NotBandCell(dst, stride, r, c, p)
  {
    var b: nat := if p == Pos(View(dst.a, stride), i, j) then 0 else if p == Pos(View(dst.v, stride), i, j) then 1
                  else if p == Pos(View(dst.h, stride), i, j) then 2 else 3;
    assert b < 4 && p == Pos(BandView(dst, stride, b), i, j);
    forall r: nat, c: nat | i + 1 <= r < rows && c < cols
      ensures NotBandCell(dst, stride, r, c, p)
    {
      assert Pos(BandView(dst, stride, 0), r, c) != Pos(BandView(dst, stride, b), i, j);
      assert Pos(BandView(dst, stride, 1), r, c) != Pos(BandView(dst, stride, b), i, j);
      assert Pos(BandView(dst, stride, 2), r, c) != Pos(BandView(dst, stride, b), i, j);
      assert Pos(BandView(dst, stride, 3), r, c) != Pos(BandView(dst, stride, b), i, j);
    }
  }

  /** Output row i stores the four sums of its own scratch rows into cell (i, j) of a, v, h and d. */
  lemma DwtRowValue(src: Source, t: seq<Int16>, dst: BandSet, stride: nat, w: nat, h: nat, i: nat, j: nat)
    requires DwtShape(src, |t|, dst, stride, w, h) && i < (h + 1) / 2 && j < (w + 1) / 2
    requires BandsDistinct(dst, stride, (h + 1) / 2, (w + 1) / 2)
    ensures Pos(View(dst.a, stride), i, j) < |t| && Pos(View(dst.v, stride), i, j) < |t|
    ensures Pos(View(dst.h, stride), i, j) < |t| && Pos(View(dst.d, stride), i, j) < |t|
    ensures var r, tl, th := DwtRow(src, t, dst, stride, w, h, i), TempRow(FilterLo, src, t, w, h, i), TempRow(FilterHi, src, t, w, h, i);
      && r[Pos(View(dst.a, stride), i, j)] == BandValue(FilterLo, tl, w, j)
      && r[Pos(View(dst.v, stride), i, j)] == BandValue(FilterHi, tl, w, j)
      && r[Pos(View(dst.h, stride), i, j)] == BandValue(FilterLo, th, w, j)
      && r[Pos(View(dst.d, stride), i, j)] == BandValue(FilterHi, th, w, j)
  {
    var rows, cols := (h + 1) / 2, (w + 1) / 2;
    var tl, th := TempRow(FilterLo, src, t, w, h, i), TempRow(FilterHi, src, t, w, h, i);
    var al, ah := BandRow(FilterLo, tl, w), BandRow(FilterHi, tl, w);
    var hl, hh := BandRow(FilterLo, th, w), BandRow(FilterHi, th, w);
    RowPassesValue(t, dst, stride, rows, cols, i, al, ah, hl, hh, j);
    BandPrefixAt(FilterLo, tl, w, cols, j);
    BandPrefixAt(FilterHi, tl, w, cols, j);
    BandPrefixAt(FilterLo, th, w, cols, j);
    BandPrefixAt(FilterHi, th, w, cols, j);
  }

  // ---------------------------------------------------------------------
  // Row by row: what the transform keeps and what it leaves in the bands
  // ---------------------------------------------------------------------

  /** Index p is no band cell of rows 0 .. m-1. */
  ghost predicate OutsideRows(dst: BandSet, stride: nat, m: nat, cols: nat, p: nat) {
    forall r: nat, c: nat :: r < m && c < cols ==> NotBandCell(dst, stride, r, c, p)
  }

  /** Every index outside the bands of rows 0 .. m-1 still holds its value in s0. */
  ghost predicate KeptOutside(t: seq<Int16>, s0: seq<Int16>, dst: BandSet, stride: nat, m: nat, cols: nat)
    requires |t| == |s0|
  {
    forall p: nat :: p < |t| && OutsideRows(dst, stride, m, cols, p) ==> t[p] == s0[p]
  }

  /**
   * Cell (r, c) of bands a, v, h, d holds the lo-lo, lo-hi, hi-lo and hi-hi
   * sums of output row r, computed from the samples of the arena s0 as it was
   * before the transform.
   */
  predicate CellHolds(t: seq<Int16>, src: Source, s0: seq<Int16>, dst: BandSet, stride: nat, w: nat, h: nat, r: nat, c: nat)
    requires DwtShape(src, |s0|, dst, stride, w, h) && |t| == |s0| && r < (h + 1) / 2 && c < (w + 1) / 2
  {
    var rows, cols := (h + 1) / 2, (w + 1) / 2;
    PosInSpan(View(dst.a, stride), rows, cols, |t|, r, c);
    PosInSpan(View(dst.v, stride), rows, cols, |t|, r, c);
    PosInSpan(View(dst.h, stride), rows, cols, |t|, r, c);
    PosInSpan(View(dst.d, stride), rows, cols, |t|, r, c);
    var tl, th := TempRow(FilterLo, src, s0, w, h, r), TempRow(FilterHi, src, s0, w, h, r);
    && t[Pos(View(dst.a, stride), r, c)] == BandValue(FilterLo, tl, w, c)
    && t[Pos(View(dst.v, stride), r, c)] == BandValue(FilterHi, tl, w, c)
    && t[Pos(View(dst.h, stride), r, c)] == BandValue(FilterLo, th, w, c)
    && t[Pos(View(dst.d, stride), r, c)] == BandValue(FilterHi, th, w, c)
  }

  /** Every cell of rows 0 .. m-1 holds. */
  ghost predicate RowsHold(t: seq<Int16>, src: Source, s0: seq<Int16>, dst: BandSet, stride: nat, w: nat, h: nat, m: nat)
    requires DwtShape(src, |s0|, dst, stride, w, h) && |t| == |s0| && m <= (h + 1) / 2
  {
    forall r: nat, c: nat :: r < m && c < (w + 1) / 2 ==> CellHolds(t, src, s0, dst, stride, w, h, r, c)
  }

  /** Output row i keeps every index outside the bands of rows 0 .. i. */
  lemma RowKeepsOutside(src: Source, prev: seq<Int16>, s0: seq<Int16>, dst: BandSet, stride: nat, w: nat, h: nat, i: nat)
    requires DwtShape(src, |s0|, dst, stride, w, h) && |prev| == |s0| && i < (h + 1) / 2
    requires KeptOutside(prev, s0, dst, stride, i, (w + 1) / 2)
    ensures KeptOutside(DwtRow(src, prev, dst, stride, w, h, i), s0, dst, stride, i + 1, (w + 1) / 2)
  {
    var cols := (w + 1) / 2;
    var next := DwtRow(src, prev, dst, stride, w, h, i);
    forall p: nat | p < |next| && OutsideRows(dst, stride, i + 1, cols, p)
      ensures next[p] == s0[p]
    {
      assert OutsideRows(dst, stride, i, cols, p);
      DwtRowFrame(src, prev, dst, stride, w, h, i, p);
    }
  }

  /** While the earlier rows kept every sample, the samples are still those of s0. */
  lemma SamplesKept(src: Source, prev: seq<Int16>, s0: seq<Int16>, dst: BandSet, stride: nat, w: nat, h: nat, i: nat)
    requires DwtShape(src, |s0|, dst, stride, w, h) && |prev| == |s0| && i <= (h + 1) / 2
    requires SourceApart(src, dst, stride, w, h)
    requires KeptOutside(prev, s0, dst, stride, i, (w + 1) / 2)
    ensures forall r: nat, c: nat :: r < h && c < w ==> Sample(src, prev, h, w, r, c) == Sample(src, s0, h, w, r, c)
  {
    forall r: nat, c: nat | r < h && c < w
      ensures Sample(src, prev, h, w, r, c) == Sample(src, s0, h, w, r, c)
    {
      if src.ArenaSource? {
        var p := Pos(src.view, r, c);
        PosInSpan(src.view, h, w, |s0|, r, c);
        assert OutsideRows(dst, stride, i, (w + 1) / 2, p);
      }
    }
  }

  /** Output row i leaves the cells of rows 0 .. i-1 as they were. */
  lemma RowKeepsEarlier(src: Source, prev: seq<Int16>, s0: seq<Int16>, dst: BandSet, stride: nat, w: nat, h: nat, i: nat)
    requires DwtShape(src, |s0|, dst, stride, w, h) && |prev| == |s0| && i < (h + 1) / 2
    requires BandsDistinct(dst, stride, (h + 1) / 2, (w + 1) / 2)
    requires RowsHold(prev, src, s0, dst, stride, w, h, i)
    ensures RowsHold(DwtRow(src, prev, dst, stride, w, h, i), src, s0, dst, stride, w, h, i)
  {
    var rows, cols := (h + 1) / 2, (w + 1) / 2;
    var next := DwtRow(src, prev, dst, stride, w, h, i);
    forall r: nat, c: nat | r < i && c < cols
      ensures CellHolds(next, src, s0, dst, stride, w, h, r, c)
    {
      assert CellHolds(prev, src, s0, dst, stride, w, h, r, c);
      var A, V, H, D := View(dst.a, stride), View(dst.v, stride), View(dst.h, stride), View(dst.d, stride);
      PosInSpan(A, rows, cols, |s0|, r, c);
      PosInSpan(V, rows, cols, |s0|, r, c);
      PosInSpan(H, rows, cols, |s0|, r, c);
      PosInSpan(D, rows, cols, |s0|, r, c);
      LaterRowsMiss(dst, stride, rows, cols, r, c, Pos(A, r, c));
      LaterRowsMiss(dst, stride, rows, cols, r, c, Pos(V, r, c));
      LaterRowsMiss(dst, stride, rows, cols, r, c, Pos(H, r, c));
      LaterRowsMiss(dst, stride, rows, cols, r, c, Pos(D, r, c));
      DwtRowFrame(src, prev, dst, stride, w, h, i, Pos(A, r, c));
      DwtRowFrame(src, prev, dst, stride, w, h, i, Pos(V, r, c));
      DwtRowFrame(src, prev, dst, stride, w, h, i, Pos(H, r, c));
      DwtRowFrame(src, prev, dst, stride, w, h, i, Pos(D, r, c));
    }
  }

  /** Output row i fills its own cells with the sums of the samples of s0. */
  lemma RowFillsOwn(src: Source, prev: seq<Int16>, s0: seq<Int16>, dst: BandSet, stride: nat, w: nat, h: nat, i: nat)
    requires DwtShape(src, |s0|, dst, stride, w, h) && |prev| == |s0| && i < (h + 1) / 2
    requires BandsDistinct(dst, stride, (h + 1) / 2, (w + 1) / 2) && SourceApart(src, dst, stride, w, h)
    requires KeptOutside(prev, s0, dst, stride, i, (w + 1) / 2)
    ensures forall c: nat :: c < (w + 1) / 2 ==> CellHolds(DwtRow(src, prev, dst, stride, w, h, i), src, s0, dst, stride, w, h, i, c)
  {
    SamplesKept(src, prev, s0, dst, stride, w, h, i);
    TempRowOfSamples(FilterLo, src, prev, s0, w, h, i, w);
    TempRowOfSamples(FilterHi, src, prev, s0, w, h, i, w);
    forall c: nat | c < (w + 1) / 2
      ensures CellHolds(DwtRow(src, prev, dst, stride, w, h, i), src, s0, dst, stride, w, h, i, c)
    {
      DwtRowValue(src, prev, dst, stride, w, h, i, c);
    }
  }

  /** One output row extends both facts from rows 0 .. i-1 to rows 0 .. i. */
  lemma RowStep(src: Source, prev: seq<Int16>, s0: seq<Int16>, dst: BandSet, stride: nat, w: nat, h: nat, i: nat)
    requires DwtShape(src, |s0|, dst, stride, w, h) && |prev| == |s0| && i < (h + 1) / 2
    requires KeptOutside(prev, s0, dst, stride, i, (w + 1) / 2)
    requires BandsDistinct(dst, stride, (h + 1) / 2, (w + 1) / 2) && SourceApart(src, dst, stride, w, h) ==>
             RowsHold(prev, src, s0, dst, stride, w, h, i)
    ensures KeptOutside(DwtRow(src, prev, dst, stride, w, h, i), s0, dst, stride, i + 1, (w + 1) / 2)
    ensures BandsDistinct(dst, stride, (h + 1) / 2, (w + 1) / 2) && SourceApart(src, dst, stride, w, h) ==>
            RowsHold(DwtRow(src, prev, dst, stride, w, h, i), src, s0, dst, stride, w, h, i + 1)
  {
    RowKeepsOutside(src, prev, s0, dst, stride, w, h, i);
    if BandsDistinct(dst, stride, (h + 1) / 2, (w + 1) / 2) && SourceApart(src, dst, stride, w, h) {
      RowKeepsEarlier(src, prev, s0, dst, stride, w, h, i);
      RowFillsOwn(src, prev, s0, dst, stride, w, h, i);
    }
  }
}
