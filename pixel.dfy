/**
 * Per-pixel arithmetic of the ADM stages: the db2 filter taps, the
 * decoupling decision, the CSF multiply, the masking subtraction and the
 * cube of a magnitude.  The buffer-walking stages (AdmWavelet and
 * AdmStages) apply these to every pixel of a view.
 */
module AdmPixel {
  import opened AdmArith

  // ---------------------------------------------------------------------
  // Wavelet filter taps
  // ---------------------------------------------------------------------

  /**
   * dwt2_db2_coeffs_lo_int / _hi_int: lrint(c * 2^15) of the single-precision
   * Daubechies db2 coefficients, as computed once by ff_adm_init.
   */
  const FilterLo: seq<int> := [15826, 27411, 7345, -4240]
  const FilterHi: seq<int> := [-4240, -7345, 27411, -15826]

  /** The high-pass filter is the low-pass one reversed with alternating signs. */
  lemma HighPassIsQuadratureMirror()
    ensures |FilterLo| == |FilterHi| == 4
    ensures forall t :: 0 <= t < 4 ==> FilterHi[t] == (if t % 2 == 0 then 1 else -1) * FilterLo[3 - t]
  {
    assert FilterHi[0] == FilterLo[3] && FilterHi[1] == -FilterLo[2];
    assert FilterHi[2] == FilterLo[1] && FilterHi[3] == -FilterLo[0];
  }

  /** The running sum `sum += coeffs[t] * xs[t]` after the first n taps. */
  function Taps(coeffs: seq<int>, xs: seq<int>, n: nat): int
    requires n <= |coeffs| && n <= |xs|
  {
    if n == 0 then 0 else Taps(coeffs, xs, n - 1) + coeffs[n - 1] * xs[n - 1]
  }

  /**
   * With int16-sized samples a 4-tap sum of either filter stays inside int32,
   * so the C accumulator `int sum` cannot overflow on any of the three read
   * types (uint8, 10-bit in uint16, int16).
   */
  lemma TapsFitInt32(coeffs: seq<int>, xs: seq<int>)
    requires coeffs == FilterLo || coeffs == FilterHi
    requires |xs| == 4 && forall t :: 0 <= t < 4 ==> -32768 <= xs[t] <= 32768
    ensures -0x8000_0000 < Taps(coeffs, xs, 4) < 0x8000_0000
  {
    assert Abs(coeffs[0]) + Abs(coeffs[1]) + Abs(coeffs[2]) + Abs(coeffs[3]) == 54822;
    TapBound(coeffs[0], xs[0]);
    TapBound(coeffs[1], xs[1]);
    TapBound(coeffs[2], xs[2]);
    TapBound(coeffs[3], xs[3]);
    assert Taps(coeffs, xs, 1) == coeffs[0] * xs[0];
    assert Taps(coeffs, xs, 2) == Taps(coeffs, xs, 1) + coeffs[1] * xs[1];
    assert Taps(coeffs, xs, 3) == Taps(coeffs, xs, 2) + coeffs[2] * xs[2];
    assert Taps(coeffs, xs, 4) == Taps(coeffs, xs, 3) + coeffs[3] * xs[3];
  }

  lemma TapBound(c: int, x: int)
    requires -32768 <= x <= 32768
    ensures -Abs(c) * 32768 <= c * x <= Abs(c) * 32768
  {
    if x >= 0 {
      MulMono(x, 32768, Abs(c));
    } else {
      MulMono(-x, 32768, Abs(c));
    }
  }

  /** The largest uint16 sample for which every 4-tap sum fits int32. */
  const WideSampleMax: int := 42455

  /**
   * The 10-bit path reads little-endian uint16 samples, which can be as large
   * as 65535.  Samples up to WideSampleMax keep both 4-tap sums inside int32;
   * 10-bit data proper is at most 1023.
   */
  lemma WideTapsFitInt32(coeffs: seq<int>, xs: seq<int>)
    requires coeffs == FilterLo || coeffs == FilterHi
    requires |xs| == 4 && forall t :: 0 <= t < 4 ==> 0 <= xs[t] <= WideSampleMax
    ensures -0x8000_0000 < Taps(coeffs, xs, 4) < 0x8000_0000
  {
    WideTapBound(coeffs[0], xs[0]);
    WideTapBound(coeffs[1], xs[1]);
    WideTapBound(coeffs[2], xs[2]);
    WideTapBound(coeffs[3], xs[3]);
    assert Taps(coeffs, xs, 1) == coeffs[0] * xs[0];
    assert Taps(coeffs, xs, 2) == Taps(coeffs, xs, 1) + coeffs[1] * xs[1];
    assert Taps(coeffs, xs, 3) == Taps(coeffs, xs, 2) + coeffs[2] * xs[2];
    assert Taps(coeffs, xs, 4) == Taps(coeffs, xs, 3) + coeffs[3] * xs[3];
  }

  lemma WideTapBound(c: int, x: int)
    requires 0 <= x <= WideSampleMax
    ensures c >= 0 ==> 0 <= c * x <= c * WideSampleMax
    ensures c < 0 ==> c * WideSampleMax <= c * x <= 0
  {
    MulMono(0, x, Abs(c));
    MulMono(x, WideSampleMax, Abs(c));
    if c < 0 {
      assert c * x == -(Abs(c) * x);
    }
  }

  /**
   * The bound is tight: with the three positive low-pass taps reading x and
   * the negative one reading 0, the sum fits int32 exactly when x is at most
   * WideSampleMax, so uint16 samples from 42456 on overflow `int sum_lo`.
   */
  lemma WideTapsOverflow(x: int)
    requires 0 <= x < 0x1_0000
    ensures Taps(FilterLo, [x, x, x, 0], 4) < 0x8000_0000 <==> x <= WideSampleMax
  {
    var xs := [x, x, x, 0];
    assert Taps(FilterLo, xs, 1) == 15826 * x;
    assert Taps(FilterLo, xs, 2) == 15826 * x + 27411 * x;
    assert Taps(FilterLo, xs, 3) == 15826 * x + 27411 * x + 7345 * x;
    assert Taps(FilterLo, xs, 4) == 50582 * x;
  }

  // ---------------------------------------------------------------------
  // Decoupling (adm_decouple)
  // ---------------------------------------------------------------------

  /** cos(1 degree)^2 rounded to single precision, as the float cos_1deg_sq holds it. */
  const Cos1DegSq: real := 16772106.0 / 16777216.0

  /**
   * The angle test: the reference (oh, ov) and distorted (th, tv) detail
   * vectors point within one degree of each other.  The three sums are
   * mathematical integers; C forms them in `int`, which agrees except at
   * the corner AngleSumsFitInt32 names.
   */
  predicate AngleFlag(oh: int, ov: int, th: int, tv: int)
    ensures (oh == 0 && ov == 0) || (th == 0 && tv == 0) ==> AngleFlag(oh, ov, th, tv)
    ensures AngleFlag(oh, ov, th, tv) ==> oh * th + ov * tv >= 0
    ensures th == -oh && tv == -ov ==> (AngleFlag(oh, ov, th, tv) <==> oh == 0 && ov == 0)
  {
    var dp := oh * th + ov * tv;
    var oMagSq := oh * oh + ov * ov;
    var tMagSq := th * th + tv * tv;
    dp >= 0 && (dp * dp) as real >= Cos1DegSq * oMagSq as real * tMagSq as real
  }

  /** |x * y| <= 2^30 for int16-sized factors, with equality only at x = y = -32768. */
  lemma ProductBound(x: int, y: int)
    requires -32768 <= x < 32768 && -32768 <= y < 32768
    ensures -0x4000_0000 < x * y <= 0x4000_0000
    ensures x * y == 0x4000_0000 ==> x == -32768 && y == -32768
  {
    var ax, ay := Abs(x), Abs(y);
    assert ax * ay == Abs(x * y) by {
      if x < 0 && y < 0 { assert (-x) * (-y) == x * y; }
      else if x < 0 { assert (-x) * y == -(x * y); }
      else if y < 0 { assert x * (-y) == -(x * y); }
    }
    MulMono(ax, 32768, ay);
    MulMono(ay, 32768, 32768);
    if ax * ay == 0x4000_0000 {
      if ax < 32768 { MulMono(ax, 32767, ay); MulMono(ay, 32768, 32767); }
      if ay < 32768 { MulMono(ay, 32767, ax); MulMono(ax, 32768, 32767); }
    }
  }

  /**
   * The three sums of the angle test are formed in `int`: the magnitudes
   * overflow exactly when both components of a vector are -32768, and the
   * dot product only when all four are.
   */
  lemma AngleSumsFitInt32(oh: Int16, ov: Int16, th: Int16, tv: Int16)
    ensures oh * oh + ov * ov < 0x8000_0000 <==> !(oh == -32768 && ov == -32768)
    ensures th * th + tv * tv < 0x8000_0000 <==> !(th == -32768 && tv == -32768)
    ensures -0x8000_0000 <= oh * th + ov * tv
    ensures oh * th + ov * tv < 0x8000_0000 <==> !(oh == -32768 && ov == -32768 && th == -32768 && tv == -32768)
  {
    ProductBound(oh, oh);
    ProductBound(ov, ov);
    ProductBound(th, th);
    ProductBound(tv, tv);
    ProductBound(oh, th);
    ProductBound(ov, tv);
  }

  function Clamp01(k: real): (r: real)
    ensures 0.0 <= r <= 1.0
  {
    if k < 0.0 then 0.0 else if k > 1.0 then 1.0 else k
  }

  /**
   * The gain-scaled candidate k * o with k = t / o clamped to [0, 1].  When
   * o = 0 the candidate is 0 (the C code multiplies a clamped infinity, or a
   * NaN when t = 0 too, by o = 0).
   */
  function Candidate(o: int, t: int): real {
    if o == 0 then 0.0 else Clamp01(t as real / o as real) * o as real
  }

  /** The candidate in integer terms: 0 when the signs differ, o when |t| > |o|, t otherwise. */
  function IntCandidate(o: int, t: int): int {
    if o == 0 || ((o < 0) != (t < 0) && t != 0) then 0
    else if Abs(t) > Abs(o) then o
    else t
  }

  /** t / o lies in [0, 1] when t lies between 0 and o. */
  lemma RatioInUnit(o: real, t: real)
    requires (o > 0.0 && 0.0 <= t <= o) || (o < 0.0 && o <= t <= 0.0)
    ensures 0.0 <= t / o <= 1.0
  {
    var q := t / o;
    assert q * o == t;
  }

  lemma CandidateIsInteger(o: int, t: int)
    ensures Candidate(o, t) == IntCandidate(o, t) as real
  {
    if o != 0 {
      var k := t as real / o as real;
      assert k * o as real == t as real;
      if (o < 0) != (t < 0) && t != 0 {
        assert k < 0.0;
      } else if Abs(t) > Abs(o) {
        assert k > 1.0;
      } else {
        RatioInUnit(o as real, t as real);
      }
    }
  }

  /** The value before rounding: the distorted value when the angle test passes, else the candidate. */
  function Unrounded(o: int, t: int, flag: bool): real {
    if flag then t as real else Candidate(o, t)
  }

  /** ceil(tmp), the restored value stored as int16. */
  function Restored(o: Int16, t: Int16, flag: bool): (r: Int16)
    ensures flag ==> r == t
    ensures !flag ==> (0 <= r <= o || o <= r <= 0)
  {
    CandidateIsInteger(o, t);
    Ceil(Unrounded(o, t, flag))
  }

  /** ceil(t - tmp), the additive impairment stored as int16. */
  function Impairment(o: Int16, t: Int16, flag: bool): (r: Int16)
    ensures r == t - Restored(o, t, flag)
  {
    CandidateIsInteger(o, t);
    Ceil(t as real - Unrounded(o, t, flag))
  }

  /**
   * One pixel of adm_decouple: xs = [oh, ov, od, th, tv, td] (reference h, v, d
   * then distorted h, v, d); the result is [rh, rv, rd, ah, av, ad] in the
   * order the C code stores them.  In each orientation the restored value
   * plus the impairment is the distorted value.
   */
  function DecouplePixel(xs: seq<Int16>): (r: seq<Int16>)
    requires |xs| == 6
    ensures |r| == 6
    ensures forall k :: 0 <= k < 3 ==> r[k] as int + r[k + 3] as int == xs[k + 3] as int
  {
    var flag := AngleFlag(xs[0], xs[1], xs[3], xs[4]);
    [Restored(xs[0], xs[3], flag), Restored(xs[1], xs[4], flag), Restored(xs[2], xs[5], flag),
     Impairment(xs[0], xs[3], flag), Impairment(xs[1], xs[4], flag), Impairment(xs[2], xs[5], flag)]
  }

  /**
   * When the angle test on the (h, v) pairs passes, all three orientations
   * (d included) are restored to the distorted value and carry no impairment.
   */
  lemma DecoupleAngleOverride(xs: seq<Int16>)
    requires |xs| == 6 && AngleFlag(xs[0], xs[1], xs[3], xs[4])
    ensures DecouplePixel(xs) == [xs[3], xs[4], xs[5], 0, 0, 0]
  {
  }

  /**
   * Otherwise each restored value lies between 0 and the reference value, and
   * restored + impairment is the distorted value.
   */
  lemma DecoupleGainBounds(xs: seq<Int16>, k: nat)
    requires |xs| == 6 && k < 3
    ensures var r := DecouplePixel(xs);
      && (!AngleFlag(xs[0], xs[1], xs[3], xs[4]) ==> 0 <= r[k] <= xs[k] || xs[k] <= r[k] <= 0)
      && r[k] + r[k + 3] == xs[k + 3]
  {
  }

  /**
   * The restored value is exactly the clamped-gain candidate of the integer
   * case analysis: 0 for opposite signs, the reference value when the
   * distorted one is larger in magnitude, the distorted value otherwise.
   */
  lemma DecoupleRestoredCases(xs: seq<Int16>, k: nat)
    requires |xs| == 6 && k < 3 && !AngleFlag(xs[0], xs[1], xs[3], xs[4])
    ensures DecouplePixel(xs)[k] == IntCandidate(xs[k], xs[k + 3])
  {
    CandidateIsInteger(xs[k], xs[k + 3]);
  }

  /** Identical reference and distorted pixels pass the angle test: nothing is impairment. */
  lemma DecoupleIdentity(xs: seq<Int16>)
    requires |xs| == 6 && xs[3..] == xs[..3]
    ensures DecouplePixel(xs) == [xs[0], xs[1], xs[2], 0, 0, 0]
  {
    var a, b: int := xs[0], xs[1];
    var m := a * a + b * b;
    assert xs[3] == xs[0] && xs[4] == xs[1] && xs[5] == xs[2];
    assert m >= 0;
    assert Cos1DegSq * m as real * m as real <= (m * m) as real;
    assert AngleFlag(xs[0], xs[1], xs[3], xs[4]);
  }

  // ---------------------------------------------------------------------
  // Contrast sensitivity (adm_csf)
  // ---------------------------------------------------------------------

  /**
   * rfactor = lrint(2^15 / Q[scale][cls]) over the Watson et al. basis
   * amplitudes Q (class 0: horizontal and vertical, class 1: diagonal).
   */
  function RFactorTable(scale: nat, cls: nat): (f: int)
    requires scale < 4 && cls < 2
    ensures 0 <= f < Q15
  {
    [[570, 193], [1048, 469], [1421, 799], [1497, 1026]][scale][cls]
  }

  /** The factor of orientation theta (0: h, 1: v, 2: d) of adm_csf's rfactor[3]. */
  function RFactor(scale: nat, theta: nat): (f: int)
    requires scale < 4 && theta < 3
    ensures 0 <= f < Q15
    ensures f == RFactorTable(scale, if theta == 2 then 1 else 0)
  {
    RFactorTable(scale, if theta == 2 then 1 else 0)
  }

  /** Horizontal and vertical detail share a visibility factor; the diagonal uses its own. */
  lemma RFactorSharing(scale: nat)
    requires scale < 4
    ensures RFactor(scale, 0) == RFactor(scale, 1) == RFactorTable(scale, 0)
    ensures RFactor(scale, 2) == RFactorTable(scale, 1)
  {
  }

  /**
   * (f * x) >> 15 for a factor below 1.0 in Q15: the result keeps the sign of
   * x and does not grow in magnitude, so it never reaches -32768.
   */
  function CsfValue(f: int, x: Int16): (r: Int16)
    requires 0 <= f < Q15
    ensures 0 <= x ==> 0 <= r <= x
    ensures x < 0 ==> x <= r <= 0
    ensures r > -32768
  {
    if x >= 0 then
      MulMono(f, Q15, x);
      MulMono(0, f, x);
      Shr15(f * x)
    else
      var y: int := -(x as int);
      MulMono(f, Q15 - 1, y);
      MulMono(0, f, y);
      assert f * x >= (Q15 - 1) * x;
      Shr15(f * x)
  }

  // ---------------------------------------------------------------------
  // Contrast masking (adm_cm_thresh, adm_cm)
  // ---------------------------------------------------------------------

  /** lrint: round to the nearest integer, ties to even. */
  function Lrint(x: real): (r: int)
    ensures (r as real) - 0.5 <= x <= (r as real) + 0.5
  {
    var f := x.Floor;
    var d := x - f as real;
    if d < 0.5 then f else if d > 0.5 then f + 1 else if f % 2 == 0 then f else f + 1
  }

  /**
   * filt_coeff of adm_cm_thresh: lrint(1/15) for the centre tap, lrint(1/30)
   * for the eight neighbours, the rounded weight then scaled by 2^15.
   */
  function CmFilterCoeff(fi: nat, fj: nat): int {
    Lrint(if fi == 1 && fj == 1 then 1.0 / 15.0 else 1.0 / 30.0) * Q15
  }

  /** Rounding before scaling leaves every threshold filter weight at zero. */
  lemma CmFilterCoeffIsZero(fi: nat, fj: nat)
    ensures CmFilterCoeff(fi, fj) == 0
  {
    assert Lrint(1.0 / 15.0) == 0;
    assert Lrint(1.0 / 30.0) == 0;
  }

  /** max(0, |x| - thr) stored back into an int16. */
  function CmValue(x: Int16, thr: Int16): (r: Int16)
    ensures 0 <= Abs(x) - thr < 32768 ==> r == Abs(x) - thr
    ensures Abs(x) - thr < 0 ==> r == 0
  {
    ToInt16(if Abs(x) - thr < 0 then 0 else Abs(x) - thr)
  }

  /** With a zero threshold, masking is the magnitude, except that -32768 wraps to itself. */
  lemma CmZeroThreshold(x: Int16)
    ensures x > -32768 ==> CmValue(x, 0) == Abs(x) >= 0
    ensures x == -32768 ==> CmValue(x, 0) == -32768
  {
  }

  // ---------------------------------------------------------------------
  // Aggregation (get_cube, adm_sum_cube border)
  // ---------------------------------------------------------------------

  /** get_cube(val): val^3 over the integers, of the sign of val. */
  function GetCube(v: Int16): (r: int)
    ensures r == v * v * v
    ensures r < 0 <==> v < 0
    ensures r == 0 <==> v == 0
  {
    CubeSign(v);
    Cube(v)
  }

  /** get_cube stays inside int32 exactly for magnitudes up to 1290. */
  lemma GetCubeFitsInt32(v: Int16)
    ensures -1290 <= v <= 1290 ==> -0x8000_0000 <= GetCube(v) < 0x8000_0000
    ensures v == 1291 ==> GetCube(v) >= 0x8000_0000
  {
    if -1290 <= v <= 1290 {
      CubeMonotone(v, 1290);
      CubeMonotone(-1290, v);
    }
  }

  /**
   * `int left = w * 0.1 - 0.5`: the double w * 0.1 - 0.5 truncated toward zero.
   * For w < 5 it lies in [-0.5, 0) and truncates to 0; from w = 5 on it is
   * (w - 5) / 10 plus a rounding error far below the distance to the next
   * integer, except when it is an integer, where the product w * 0.1 rounds
   * to exactly w / 10.
   */
  function BorderLow(n: int): int
  {
    if n < 5 then 0 else (n - 5) / 10
  }

  /** BorderLow is the truncation toward zero of the exact value n * 0.1 - 0.5. */
  lemma BorderLowTruncates(n: int)
    requires n >= 0
    ensures n < 5 ==> BorderLow(n) == 0 && -1.0 < n as real * 0.1 - 0.5 < 0.0
    ensures n >= 5 ==> BorderLow(n) as real <= n as real * 0.1 - 0.5 < (BorderLow(n) + 1) as real
  {
  }

  /**
   * The border bounds: 0 <= left <= right = n - left <= n, nothing is cut for
   * n < 15, and for n >= 1 the surviving range is non-empty.
   */
  lemma BorderBounds(n: int)
    requires n >= 0
    ensures 0 <= BorderLow(n) <= n - BorderLow(n) <= n
    ensures n < 15 ==> BorderLow(n) == 0
    ensures n >= 1 ==> n - 2 * BorderLow(n) >= 1
  {
  }
}
