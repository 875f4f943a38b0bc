/**
 * Integer arithmetic shared by every stage of the ADM pipeline: the int16_t
 * sample type, the Q15 shift, the mirror-reflection index rule, the
 * ALIGN_CEIL macro and an exact ceil(cbrt(.)).
 */
module AdmArith {

  /** Values of C's int16_t; every buffer of the pipeline holds these. */
  type Int16 = x: int | -32768 <= x < 32768

  const Q15: int := 32768  // 1 << BIT_SHIFT

  /** Conversion of an int to int16_t, taken as two's-complement wrap-around. */
  function ToInt16(x: int): (r: Int16)
    ensures -32768 <= x < 32768 ==> r == x
    ensures (x - r) % 65536 == 0
  {
    (x + 32768) % 65536 - 32768
  }

  /** `x >> BIT_SHIFT` on an int, taken as an arithmetic shift (rounds toward minus infinity). */
  function Shr15(x: int): (r: int)
    ensures r * Q15 <= x < r * Q15 + Q15
  {
    x / Q15
  }

  function Abs(x: int): int { if x < 0 then -x else x }

  /**
   * Mirror reflection of an out-of-range tap index: idx = |idx|, then
   * idx >= n becomes 2n - idx - 1.  A neighbourhood one step beyond either
   * end reflects into range for every n >= 1; two steps beyond the upper end
   * needs n >= 2.
   */
  function Reflect(idx: int, n: int): (r: int)
    ensures n >= 1 && -1 <= idx <= n ==> 0 <= r < n
    ensures n >= 2 && -1 <= idx <= n + 1 ==> 0 <= r < n
    ensures 0 <= idx < n ==> r == idx
  {
    var a := Abs(idx);
    if a >= n then 2 * n - a - 1 else a
  }

  /** Every tap row `2k - 1 + t` of the 4-tap wavelet, k < (n+1)/2, reflects into [0, n) once n >= 2. */
  lemma DwtTapsInRange(n: int, k: int, t: int)
    requires n >= 2 && 0 <= k < (n + 1) / 2 && 0 <= t < 4
    ensures 0 <= Reflect(2 * k - 1 + t, n) < n
  {
  }

  /** With n = 1 the last tap of the first output row reflects to -1, outside the buffer. */
  lemma DwtTapOutOfRangeForOne()
    ensures (1 + 1) / 2 == 1 && Reflect(2 * 0 - 1 + 3, 1) == -1
  {
  }

  /** Every 3x3 neighbourhood tap `i - 1 + t` reflects into [0, n) for n >= 1. */
  lemma ThreshTapsInRange(n: int, i: int, t: int)
    requires n >= 1 && 0 <= i < n && 0 <= t < 3
    ensures 0 <= Reflect(i - 1 + t, n) < n
  {
  }

  /** ALIGN_CEIL(x): x rounded up to a multiple of MAX_ALIGN = 32. */
  function AlignCeil(x: nat): (r: nat)
    ensures r % 32 == 0
    ensures x <= r < x + 32
  {
    x + (if x % 32 != 0 then 32 - x % 32 else 0)
  }

  /** ceil of a real number. */
  function Ceil(x: real): (r: int)
    ensures r as real - 1.0 < x <= r as real
  {
    -((-x).Floor)
  }

  function Cube(n: int): int { n * n * n }

  lemma MulMono(a: int, b: int, c: int)
    requires a <= b && 0 <= c
    ensures a * c <= b * c
    ensures c * a <= c * b
  {
  }

  /** Consecutive cubes differ by 3a^2 + 3a + 1 >= 1. */
  lemma CubeStep(a: int)
    ensures Cube(a) < Cube(a + 1)
  {
    assert Cube(a + 1) == Cube(a) + 3 * (a * (a + 1)) + 1;
    if a >= 0 {
      MulMono(0, a, a + 1);
    } else {
      MulMono(0, -a, -(a + 1));
      assert a * (a + 1) == (-a) * (-(a + 1));
    }
  }

  /** Cubing is strictly increasing. */
  lemma {:induction false} CubeStrict(a: int, b: int)
    requires a < b
    ensures Cube(a) < Cube(b)
    decreases b - a
  {
    CubeStep(a);
    if a + 1 < b {
      CubeStrict(a + 1, b);
    }
  }

  lemma CubeMonotone(a: int, b: int)
    requires a <= b
    ensures Cube(a) <= Cube(b)
  {
    if a < b {
      CubeStrict(a, b);
    }
  }

  /** A cube has the sign of its base. */
  lemma CubeSign(n: int)
    ensures Cube(n) < 0 <==> n < 0
    ensures Cube(n) == 0 <==> n == 0
  {
    if n < 0 {
      CubeStrict(n, 0);
    } else if n > 0 {
      CubeStrict(0, n);
    }
  }

  /** |n| <= |n^3| for every integer, so a cube outgrows any bound. */
  lemma CubeDominates(n: int)
    ensures n >= 0 ==> Cube(n) >= n
    ensures n <= 0 ==> Cube(n) <= n
  {
    if n >= 1 {
      MulMono(1, n, n);
      MulMono(1, n * n, n);
    } else if n <= -1 {
      MulMono(1, -n, -n);
      MulMono(1, n * n, -n);
    }
  }

  /** While den * n^3 is still below num, n has not passed |num|. */
  lemma CbrtSearchBound(num: int, den: int, n: int)
    requires den >= 1 && den * Cube(n) < num
    ensures n <= Abs(num)
  {
    if n > Abs(num) {
      CubeDominates(n);
      MulMono(1, den, Cube(n));
    }
  }

  /**
   * Search upward from n for the least m with den * m^3 >= num; n - 1 is
   * known to fall short.
   */
  function CeilCbrtFrom(num: int, den: int, n: int): (r: int)
    requires den >= 1
    requires den * Cube(n - 1) < num
    requires n <= Abs(num) + 1
    ensures den * Cube(r) >= num
    ensures den * Cube(r - 1) < num
    decreases Abs(num) + 1 - n
  {
    if den * Cube(n) >= num then n
    else
      CbrtSearchBound(num, den, n);
      CeilCbrtFrom(num, den, n + 1)
  }

  /**
   * ceil(cbrt(num / den)) computed exactly: the least integer r with
   * den * r^3 >= num.
   */
  function CeilCbrt(num: int, den: int): (r: int)
    requires den >= 1
    ensures den * Cube(r) >= num
    ensures den * Cube(r - 1) < num
  {
    var start := -Abs(num) - 1;
    CubeDominates(start - 1);
    MulMono(1, den, -Cube(start - 1));
    CeilCbrtFrom(num, den, start)
  }

  /** The two ensures of CeilCbrt pin its value down: ceil(cbrt(m^3 / 1)) is m. */
  lemma CeilCbrtOfCube(m: int)
    ensures CeilCbrt(Cube(m), 1) == m
  {
    var r := CeilCbrt(Cube(m), 1);
    if r < m {
      CubeMonotone(r, m - 1);
      CubeStrict(m - 1, m);
    } else if r > m {
      CubeMonotone(m, r - 1);
    }
  }

  /** ceil(cbrt(.)) never decreases as its argument grows. */
  lemma CeilCbrtMonotone(a: int, b: int, den: int)
    requires den >= 1 && a <= b
    ensures CeilCbrt(a, den) <= CeilCbrt(b, den)
  {
    var ra, rb := CeilCbrt(a, den), CeilCbrt(b, den);
    if rb < ra {
      var x, y := Cube(rb), Cube(ra - 1);
      CubeMonotone(rb, ra - 1);
      MulMono(x, y, den);
    }
  }
}
