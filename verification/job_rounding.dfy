/** The progress formula divides two integers, which gives the double nearest to their quotient, and
    rounds that to an integer, ties to even. For every dividend below 2^52 the result is the rounding
    of the exact quotient. */
module JobRounding {
  import opened Integers
  import opened JobHandlers
  import opened StatesLanguage

  /** RoundHalfEven is the nearest integer, and the even one of two equally near. */
  lemma RoundIsNearest(n: int, d: int)
    requires d > 0
    ensures var q := RoundHalfEven(n, d);
            -d <= 2 * (n - q * d) <= d && (2 * (n - q * d) == d || 2 * (n - q * d) == -d ==> q % 2 == 0)
  {
    var q, r := n / d, n % d;
    assert n == q * d + r;
    assert (q + 1) * d == q * d + d;
  }

  /** 2^53 and 2^52. */
  const PRECISION := 0x20_0000_0000_0000
  const HALF_PRECISION := 0x10_0000_0000_0000

  function Dyadic(m: nat, j: nat): real {
    m as real / Pow(2, j) as real
  }

  /** The doubles from 0 to 2^53 (binary64, section 3.3 of IEEE 754-2019): multiples of a power of two
      no smaller than 2^-1074, with a significand of at most 53 bits. */
  ghost predicate IsDouble(z: real) {
    exists m: nat, j: nat :: m <= PRECISION && j <= 1074 && z == Dyadic(m, j)
  }

  function Abs(x: real): real {
    if x < 0.0 then -x else x
  }

  /** `y` is a double nearest to `q`: what a correctly rounded division returns. */
  ghost predicate IsNearest(y: real, q: real) {
    IsDouble(y) && forall z: real :: IsDouble(z) ==> Abs(y - q) <= Abs(z - q)
  }

  /** roundTiesToEven to an integer (section 4.3.1 of IEEE 754-2019), on the real value of a double. */
  function RoundReal(y: real): int {
    var f := y.Floor;
    var r := y - f as real;
    if 2.0 * r < 1.0 then f else if 2.0 * r > 1.0 then f + 1 else if f % 2 == 0 then f else f + 1
  }

  /** All that rounding to an integer needs to know: `y` is within the relative error of one rounding of
      n / d, and exact where n / d is halfway between two integers. */
  ghost predicate IsQuotient(y: real, n: int, d: int)
    requires d > 0
  {
    var q := n as real / d as real;
    && -q <= (y - q) * PRECISION as real <= q
    && (2 * (n % d) == d ==> y == q)
  }

  // ------------------------------------------------ products of reals, one at a time

  lemma ScaleLeq(a: real, b: real, r: real)
    requires a <= b && r >= 0.0
    ensures a * r <= b * r
  {
    assert (b - a) * r >= 0.0;
  }

  lemma ScaleLess(a: real, b: real, r: real)
    requires r > 0.0 && a * r < b * r
    ensures a < b
  {
    if a >= b { ScaleLeq(b, a, r); }
  }

  lemma Cancel(a: real, b: real, r: real)
    requires r > 0.0 && a * r == b * r
    ensures a == b
  {
    assert (a - b) * r == 0.0;
  }

  lemma TimesDivisor(a: real, r: real)
    requires r > 0.0
    ensures a / r * r == a
  {
  }

  lemma Swap(a: real, b: real, c: real)
    ensures a * b * c == a * c * b
  {
  }

  lemma Negate(a: real, r: real)
    ensures -a * r == -(a * r)
  {
  }

  lemma Distribute(a: real, b: real, r: real)
    ensures (a - b) * r == a * r - b * r
    ensures (a + b) * r == a * r + b * r
  {
  }

  lemma RealTimes(k: int, d: int)
    ensures (k * d) as real == k as real * d as real
  {
  }

  // ------------------------------------------------ the double against the quotient

  lemma ErrorTimesDivisor(e: real, q: real, r: real, u: real, n: real)
    requires r > 0.0 && -q <= e * u <= q && q * r == n
    ensures -n <= e * r * u <= n
  {
    ScaleLeq(e * u, q, r);
    ScaleLeq(-q, e * u, r);
    Swap(e, u, r);
    Negate(q, r);
  }

  lemma SmallError(t: real, u: real, n: real)
    requires 0.0 <= 2.0 * n < u && -n <= t * u <= n
    ensures -0.5 < t < 0.5
  {
    ScaleLess(t, 0.5, u);
    ScaleLess(-0.5, t, u);
  }

  lemma ScaledError(y: real, e: real, q: real, r: real, u: real, n: real)
    requires r > 0.0 && -q <= e * u <= q && q * r == n && 0.0 <= 2.0 * n < u && e == y - q
    ensures n - 0.5 < y * r < n + 0.5
  {
    ErrorTimesDivisor(e, q, r, u, n);
    SmallError(e * r, u, n);
    Distribute(e, q, r);
  }

  /** Times d, the error of the quotient is less than a half. */
  lemma QuotientError(y: real, n: int, d: int)
    requires d > 0 && 0 <= 2 * n < PRECISION && IsQuotient(y, n, d)
    ensures n as real - 0.5 < y * d as real < n as real + 0.5
  {
    var r, q, u := d as real, n as real / d as real, PRECISION as real;
    TimesDivisor(n as real, r);
    ScaledError(y, y - q, q, r, u, n as real);
  }

  /** Such a double is on the same side of every halfway point as n / d. */
  lemma SameSide(y: real, n: int, d: int, k: int)
    requires d > 0 && n as real - 0.5 < y * d as real < n as real + 0.5
    requires 2 * (k * d) - d < 2 * n < 2 * (k * d) + d
    ensures k as real - 0.5 < y < k as real + 0.5
  {
    var lo, hi, r := k as real - 0.5, k as real + 0.5, d as real;
    assert 2 * (k * d) - d + 1 <= 2 * n <= 2 * (k * d) + d - 1;
    RealTimes(k, d);
    Distribute(k as real, 0.5, r);
    Below(lo * r, y * r, lo, y, r);
    Below(y * r, hi * r, y, hi, r);
  }

  lemma Below(ar: real, br: real, a: real, b: real, r: real)
    requires r > 0.0 && ar == a * r && br == b * r && ar < br
    ensures a < b
  {
    ScaleLess(a, b, r);
  }

  lemma RoundRealNear(y: real, k: int)
    requires k as real - 0.5 < y < k as real + 0.5
    ensures RoundReal(y) == k
  {
    var f := y.Floor;
    assert f == k || f == k - 1;
  }

  lemma CancelBoth(ar: real, br: real, a: real, b: real, r: real)
    requires r > 0.0 && ar == a * r && br == b * r && ar == br
    ensures a == b
  {
    Cancel(a, b, r);
  }

  lemma TieQuotient(n: int, q: int, d: int)
    requires d > 0 && 2 * n == 2 * (q * d) + d
    ensures n as real / d as real == q as real + 0.5
  {
    var r := d as real;
    RealTimes(q, d);
    Distribute(q as real, 0.5, r);
    TimesDivisor(n as real, r);
    CancelBoth(n as real, (q * d) as real + 0.5 * r, n as real / r, q as real + 0.5, r);
  }

  /** A double with those two properties rounds to the same integer as the exact quotient. */
  lemma CloseRoundsLikeQuotient(y: real, n: int, d: int)
    requires d > 0 && 0 <= 2 * n < PRECISION && IsQuotient(y, n, d)
    ensures RoundReal(y) == RoundHalfEven(n, d)
  {
    var q, r := n / d, n % d;
    assert n == q * d + r;
    if 2 * r == d {
      TieQuotient(n, q, d);
      assert y == q as real + 0.5;
    } else {
      var k := RoundHalfEven(n, d);
      assert (q + 1) * d == q * d + d;
      QuotientError(y, n, d);
      SameSide(y, n, d, k);
      RoundRealNear(y, k);
    }
  }

  // ------------------------------------------------ the nearest double is that close

  lemma {:induction false} PowAdds(a: nat, b: nat)
    ensures Pow(2, a + b) == Pow(2, a) * Pow(2, b)
    decreases a
  {
    if a > 0 {
      PowAdds(a - 1, b);
      assert Pow(2, a + b) == 2 * Pow(2, a - 1 + b);
    }
  }

  lemma PowersOfTwo()
    ensures Pow(2, 1) == 2 && Pow(2, 2) == 4 && Pow(2, 54) == 4 * HALF_PRECISION
  {
    assert Pow(2, 1) == 2 * Pow(2, 0) && Pow(2, 2) == 2 * Pow(2, 1) && Pow(2, 3) == 2 * Pow(2, 2);
    PowAdds(3, 3);
    PowAdds(6, 6);
    PowAdds(12, 1);
    PowAdds(13, 13);
    PowAdds(26, 26);
    PowAdds(52, 2);
  }

  /** The grid on which n / d has a 53-bit significand. */
  lemma {:induction false} Grid(n: int, d: int, i: nat) returns (j: nat)
    requires 0 < d < 4 * n && i <= 54 && n * Pow(2, i) < PRECISION * d
    ensures j <= 54 && HALF_PRECISION * d <= n * Pow(2, j) < PRECISION * d
    decreases 54 - i
  {
    if i == 54 { LastGrid(n, d); }
    if HALF_PRECISION * d <= n * Pow(2, i) {
      j := i;
    } else {
      Doubled(n, Pow(2, i));
      assert Pow(2, i + 1) == 2 * Pow(2, i);
      j := Grid(n, d, i + 1);
    }
  }

  lemma LastGrid(n: int, d: int)
    requires 0 < d < 4 * n
    ensures HALF_PRECISION * d <= n * Pow(2, 54)
  {
    PowersOfTwo();
  }

  lemma Doubled(n: int, p: int)
    ensures n * (2 * p) == 2 * (n * p)
  {
  }

  /** The multiple of 1/d next to an integer is at most a half away from it. */
  lemma HalfAway(big: int, d: int, m: int, w: real)
    requires d > 0 && -d <= 2 * (big - m * d) <= d && w * d as real == big as real
    ensures -0.5 <= m as real - w <= 0.5
  {
    var r := d as real;
    RealTimes(m, d);
    Distribute(m as real, 0.5, r);
    NotBelow((m as real - 0.5) * r, w * r, m as real - 0.5, w, r);
    NotBelow(w * r, (m as real + 0.5) * r, w, m as real + 0.5, r);
  }

  lemma NotBelow(ar: real, br: real, a: real, b: real, r: real)
    requires r > 0.0 && ar == a * r && br == b * r && ar <= br
    ensures a <= b
  {
    if a > b { ScaleGap(b, a, r); }
  }

  lemma ScaleGap(a: real, b: real, r: real)
    requires a < b && r > 0.0
    ensures a * r < b * r
  {
    assert (b - a) * r > 0.0;
  }

  /** In units of the grid the significand is at least 2^52, so half a unit is a small part of it. */
  lemma HalfUnit(e: real, q: real, p: real)
    requires p > 0.0 && -0.5 <= e * p <= 0.5 && q * p >= HALF_PRECISION as real
    ensures -q <= e * PRECISION as real <= q
  {
    var u := PRECISION as real;
    HalfOf(e * p, u);
    Swap(e, p, u);
    Negate(q, p);
    NotBelow(e * u * p, q * p, e * u, q, p);
    NotBelow(-q * p, e * u * p, -q, e * u, p);
  }

  lemma HalfOf(t: real, u: real)
    requires u > 0.0 && -0.5 <= t <= 0.5
    ensures -0.5 * u <= t * u <= 0.5 * u
  {
    ScaleLeq(t, 0.5, u);
    ScaleLeq(-0.5, t, u);
  }

  /** Some double is within the relative error of the quotient. */
  lemma CloseDouble(n: int, d: int) returns (z: real)
    requires 0 < d < 4 * n && 2 * n < PRECISION
    ensures IsDouble(z)
    ensures var q := n as real / d as real; -q <= (z - q) * PRECISION as real <= q
  {
    assert n * Pow(2, 0) == n;
    assert n < PRECISION * d;
    var j := Grid(n, d, 0);
    var big := n * Pow(2, j);
    var m := RoundHalfEven(big, d);
    RoundIsNearest(big, d);
    SignificandFits(big, d, m);
    z := Dyadic(m, j);
    GridError(n, d, j, big, m, z);
  }

  lemma SignificandFits(big: int, d: int, m: int)
    requires d > 0 && 0 <= big < PRECISION * d && -d <= 2 * (big - m * d) <= d
    ensures 0 <= m <= PRECISION
  {
    if m > PRECISION { IntScale(PRECISION + 1, m, d); }
    if m < 0 { IntScale(m, -1, d); }
  }

  lemma IntScale(a: int, b: int, d: int)
    requires a <= b && d >= 0
    ensures a * d <= b * d
  {
    assert (b - a) * d >= 0;
  }

  lemma GridError(n: int, d: int, j: nat, big: int, m: nat, z: real)
    requires d > 0 && n > 0 && big == n * Pow(2, j) && HALF_PRECISION * d <= big
    requires -d <= 2 * (big - m * d) <= d && z == Dyadic(m, j)
    ensures var q := n as real / d as real; -q <= (z - q) * PRECISION as real <= q
  {
    var q, p, r := n as real / d as real, Pow(2, j) as real, d as real;
    TimesDivisor(n as real, r);
    TimesDivisor(m as real, p);
    RealTimes(n, Pow(2, j));
    OnGrid(q, r, p, n as real);
    ErrorOnGrid(q, p, z, big, m, d);
  }

  lemma OnGrid(q: real, r: real, p: real, n: real)
    requires q * r == n
    ensures q * p * r == n * p
  {
    Swap(q, p, r);
  }

  lemma ErrorOnGrid(q: real, p: real, z: real, big: int, m: int, d: int)
    requires d > 0 && p > 0.0 && z * p == m as real && q * p * d as real == big as real
    requires HALF_PRECISION * d <= big && -d <= 2 * (big - m * d) <= d
    ensures -q <= (z - q) * PRECISION as real <= q
  {
    HalfAway(big, d, m, q * p);
    Distribute(z, q, p);
    RealTimes(HALF_PRECISION, d);
    NotBelow(HALF_PRECISION as real * d as real, q * p * d as real, HALF_PRECISION as real, q * p, d as real);
    HalfUnit(z - q, q, p);
  }

  lemma NearestIsQuotient(y: real, n: int, d: int)
    requires 0 < d < 4 * n && 2 * n < PRECISION && IsNearest(y, n as real / d as real)
    ensures IsQuotient(y, n, d)
  {
    var q := n as real / d as real;
    var z := CloseDouble(n, d);
    AbsScales(y - q, z - q, q, PRECISION as real);
    if 2 * (n % d) == d {
      TieQuotient(n, n / d, d);
      HalvesAreDoubles(n / d, n, d);
    }
  }

  lemma HalvesAreDoubles(k: int, n: int, d: int)
    requires d > 0 && k == n / d && 0 <= 2 * n < PRECISION
    ensures IsDouble(k as real + 0.5)
  {
    assert 0 <= k <= n;
    SmallHalf(2 * k + 1);
  }

  lemma SmallHalf(m: nat)
    requires m <= PRECISION
    ensures IsDouble(m as real / 2.0)
  {
    assert Pow(2, 1) == 2 * Pow(2, 0);
    assert m as real / 2.0 == Dyadic(m, 1);
  }

  lemma AbsScales(a: real, b: real, q: real, u: real)
    requires u > 0.0 && Abs(a) <= Abs(b) && -q <= b * u <= q
    ensures -q <= a * u <= q
  {
    ScaleLeq(a, Abs(b), u);
    ScaleLeq(-Abs(b), a, u);
    Negate(b, u);
  }

  /** Quotients up to a quarter round to 0, and so do their doubles. */
  lemma SmallQuotient(y: real, n: int, d: int)
    requires 0 <= 4 * n <= d && d > 0 && IsNearest(y, n as real / d as real)
    ensures RoundReal(y) == 0 == RoundHalfEven(n, d)
  {
    var q := n as real / d as real;
    QuarterAtMost(n, d);
    NearZero(y, q);
    RoundRealNear(y, 0);
  }

  lemma QuarterAtMost(n: int, d: int)
    requires 0 <= 4 * n <= d && d > 0
    ensures n as real / d as real <= 0.25
  {
    var r := d as real;
    TimesDivisor(n as real, r);
    NotBelow(n as real, 0.25 * r, n as real / r, 0.25, r);
  }

  lemma NearZero(y: real, q: real)
    requires q <= 0.25 && IsNearest(y, q)
    ensures 0.0 <= y <= 0.25
  {
    PowersOfTwo();
    assert Dyadic(1, 2) == 0.25;
    assert IsDouble(0.25);
    DoublesAreNotNegative(y);
  }

  lemma DoublesAreNotNegative(y: real)
    requires IsDouble(y)
    ensures y >= 0.0
  {
  }

  /** Rounding the nearest double gives what rounding the exact quotient gives. */
  lemma DoubleRoundsLikeQuotient(y: real, n: int, d: int)
    requires d > 0 && 0 <= 2 * n < PRECISION && IsNearest(y, n as real / d as real)
    ensures RoundReal(y) == RoundHalfEven(n, d)
  {
    if 4 * n <= d {
      SmallQuotient(y, n, d);
    } else {
      NearestIsQuotient(y, n, d);
      CloseRoundsLikeQuotient(y, n, d);
    }
  }

  /** The progress computed with doubles is RawProgress, the integer nearest to the exact percentage with
      ties to even, for any attempt number below 2^52 / 100. */
  lemma ProgressWithDoubles(y: real, attempt: int, succeedAfter: int)
    requires 0 <= 200 * attempt < PRECISION
    requires IsNearest(y, (100 * attempt) as real / Max(succeedAfter, 1) as real)
    ensures Min(100, RoundReal(y)) == RawProgress(attempt, succeedAfter)
    ensures var (n, d, k) := (100 * attempt, Max(succeedAfter, 1), RoundReal(y));
            -d <= 2 * (n - k * d) <= d && (2 * (n - k * d) == d || 2 * (n - k * d) == -d ==> k % 2 == 0)
  {
    DoubleRoundsLikeQuotient(y, 100 * attempt, Max(succeedAfter, 1));
    RoundIsNearest(100 * attempt, Max(succeedAfter, 1));
  }
}
