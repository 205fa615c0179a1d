/** The Wilson score interval, over the reals. The square root enters as a function; each result
    assumes of it only that it returns the nonnegative root of the one discriminant at hand. */
module Wilson {

  datatype Interval = NotApplicable | OutOfRange | Bounds(low: real, high: real)

  function Discriminant(p: real, n: real, z: real): real
    requires n > 0.0
  {
    p * (1.0 - p) / n + z * z / (4.0 * n * n)
  }

  function Denominator(n: real, z: real): (d: real)
    requires n > 0.0
    ensures d >= 1.0
  {
    NonNegativeRatio(z, n);
    1.0 + z * z / n
  }

  lemma NonNegativeRatio(z: real, n: real)
    requires n > 0.0
    ensures z * z / n >= 0.0
  {
    assert z * z >= 0.0;
  }

  function Center(p: real, n: real, z: real): real
    requires n > 0.0
  {
    (p + z * z / (2.0 * n)) / Denominator(n, z)
  }

  function Margin(p: real, n: real, z: real, sqrt: real -> real): real
    requires n > 0.0
  {
    z * sqrt(Discriminant(p, n, z)) / Denominator(n, z)
  }

  // wilson_ci
  function Ci(k: int, n: nat, z: real, sqrt: real -> real): Interval {
    if n == 0 then NotApplicable
    else if k < 0 || k > n then OutOfRange
    else
      var p := k as real / n as real;
      var low := Center(p, n as real, z) - Margin(p, n as real, z, sqrt);
      var high := Center(p, n as real, z) + Margin(p, n as real, z, sqrt);
      Bounds(if low < 0.0 then 0.0 else low, if high > 1.0 then 1.0 else high)
  }

  ghost predicate Root(sqrt: real -> real, x: real) {
    sqrt(x) >= 0.0 && sqrt(x) * sqrt(x) == x
  }

  // The score inequality the interval is meant to solve.
  ghost predicate WithinScore(x: real, p: real, n: real, z: real)
    requires n > 0.0
  {
    (x - p) * (x - p) <= z * z * (x * (1.0 - x)) / n
  }

  // ----- the quadratic -----

  // h = z²/n, and the interval's centre and margin scaled by the denominator 1 + h.
  lemma Completed(x: real, p: real, h: real, c: real, m: real)
    requires h >= 0.0 && c * (1.0 + h) == p + h / 2.0
    requires m * m * (1.0 + h) * (1.0 + h) == h * (p * (1.0 - p)) + h * h / 4.0
    ensures (1.0 + h) * ((x - p) * (x - p) - h * (x * (1.0 - x)))
      == (1.0 + h) * (1.0 + h) * ((x - c) * (x - c) - m * m)
  {
    var d := 1.0 + h;
    var cd := c * d;
    var xd := x * d;
    assert d * d * ((x - c) * (x - c)) == (xd - cd) * (xd - cd) by {
      assert d * (x - c) == xd - cd;
      assert d * d * ((x - c) * (x - c)) == (d * (x - c)) * (d * (x - c));
    }
    assert d * d * (m * m) == m * m * d * d;
    assert d * d * ((x - c) * (x - c) - m * m) == (xd - cd) * (xd - cd) - m * m * d * d;
    var q := (x - p) * (x - p) - h * (x * (1.0 - x));
    assert q == d * (x * x) - (2.0 * p + h) * x + p * p;
    assert d * q == d * d * (x * x) - d * x * (2.0 * p + h) + d * (p * p);
    assert xd * xd == d * d * (x * x);
    assert 2.0 * (xd * cd) == d * x * (2.0 * p + h);
  }

  lemma Products(a: real, b: real)
    ensures a >= 0.0 && b >= 0.0 ==> a * b >= 0.0
    ensures a < 0.0 && b > 0.0 ==> a * b < 0.0
    ensures a > 0.0 && b < 0.0 ==> a * b < 0.0
  {}

  lemma SquaresCompare(y: real, m: real)
    requires m >= 0.0
    ensures y * y <= m * m <==> -m <= y <= m
  {
    assert m * m - y * y == (m - y) * (m + y);
    Products(m - y, m + y);
  }

  // A centre and a margin that complete the square of the score inequality.
  ghost predicate Completes(p: real, h: real, c: real, m: real) {
    && h >= 0.0 && 0.0 <= p <= 1.0 && m >= 0.0 && c * (1.0 + h) == p + h / 2.0
    && m * m * (1.0 + h) * (1.0 + h) == h * (p * (1.0 - p)) + h * h / 4.0
  }

  lemma SolvesScore(x: real, p: real, h: real, c: real, m: real)
    requires Completes(p, h, c, m)
    ensures (x - p) * (x - p) <= h * (x * (1.0 - x)) <==> c - m <= x <= c + m
  {
    Completed(x, p, h, c, m);
    var d := 1.0 + h;
    var q, s := (x - p) * (x - p) - h * (x * (1.0 - x)), (x - c) * (x - c) - m * m;
    assert d * q == d * d * s;
    SameSign(d, q, s);
    SquaresCompare(x - c, m);
  }

  lemma SameSign(d: real, q: real, s: real)
    requires d >= 1.0 && d * q == d * d * s
    ensures q <= 0.0 <==> s <= 0.0
  {
    assert d * (q - d * s) == 0.0;
    assert q == d * s;
  }

  lemma RootBelow(c: real, m: real)
    requires c >= 0.0 && m >= 0.0 && m * m <= c * c
    ensures m <= c
  {
    SquaresCompare(m, c);
  }

  lemma StaysInUnit(p: real, h: real, c: real, m: real)
    requires Completes(p, h, c, m)
    ensures c - m >= 0.0 && c + m <= 1.0
  {
    var d := 1.0 + h;
    Completed(0.0, p, h, c, m);
    SameSign(d, -(p * p), m * m - c * c);
    assert c >= 0.0;
    RootBelow(c, m);
    Completed(1.0, p, h, c, m);
    var q := 1.0 - p;
    SameSign(d, -(q * q), m * m - (1.0 - c) * (1.0 - c));
    assert (1.0 - c) * d == q + h / 2.0;
    assert 1.0 - c >= 0.0;
    RootBelow(1.0 - c, m);
  }

  // ----- the interval itself -----

  function P(k: int, n: nat): real
    requires n > 0
  {
    k as real / n as real
  }

  lemma ProportionIsProper(k: int, n: nat)
    requires 0 <= k <= n && n > 0
    ensures 0.0 <= P(k, n) <= 1.0
  {
    assert k as real <= n as real;
  }

  lemma ScaledDiscriminant(p: real, n: real, z: real)
    requires n > 0.0
    ensures var h := z * z / n; z * z * Discriminant(p, n, z) == h * (p * (1.0 - p)) + h * h / 4.0
  {
    var h := z * z / n;
    assert z * z * (p * (1.0 - p) / n) == h * (p * (1.0 - p));
    assert z * z * (z * z / (4.0 * n * n)) == h * h / 4.0;
  }

  lemma HalfRatio(w: real, n: real)
    requires n > 0.0
    ensures w / (2.0 * n) == (w / n) / 2.0
  {
    assert w / (2.0 * n) * (2.0 * n) == w && (w / n) * n == w;
  }

  lemma SquareOfMargin(m: real, d: real, z: real, r: real, disc: real)
    requires d >= 1.0 && z >= 0.0 && r >= 0.0 && m * d == z * r && r * r == disc
    ensures m >= 0.0 && m * m * d * d == z * z * disc
  {
    assert m * m * d * d == (m * d) * (m * d);
    assert (z * r) * (z * r) == z * z * (r * r);
    Products(z, r);
    Products(m, d);
  }

  lemma CiCompletes(k: int, n: nat, z: real, sqrt: real -> real)
    requires 0 <= k <= n && n > 0 && z >= 0.0 && Root(sqrt, Discriminant(P(k, n), n as real, z))
    ensures Completes(P(k, n), z * z / n as real, Center(P(k, n), n as real, z), Margin(P(k, n), n as real, z, sqrt))
  {
    hide *;
    ProportionIsProper(k, n);
    RootFacts(sqrt, Discriminant(P(k, n), n as real, z));
    CompletesAt(P(k, n), n as real, z, z * z / n as real, sqrt(Discriminant(P(k, n), n as real, z)), sqrt);
  }

  lemma CompletesAt(p: real, n: real, z: real, h: real, root: real, sqrt: real -> real)
    requires n > 0.0 && 0.0 <= p <= 1.0 && z >= 0.0 && h == z * z / n
    requires root == sqrt(Discriminant(p, n, z)) && root >= 0.0 && root * root == Discriminant(p, n, z)
    ensures Completes(p, h, Center(p, n, z), Margin(p, n, z, sqrt))
  {
    hide *;
    CenterOverDenominator(p, n, z);
    MarginOverDenominator(p, n, z, sqrt);
    ScaledDiscriminant(p, n, z);
    Assembled(p, h, Center(p, n, z), Margin(p, n, z, sqrt), Denominator(n, z), z, root, Discriminant(p, n, z));
  }

  lemma Cancels(a: real, d: real)
    requires d >= 1.0
    ensures (a / d) * d == a
  {}

  lemma CenterOverDenominator(p: real, n: real, z: real)
    requires n > 0.0
    ensures Center(p, n, z) * Denominator(n, z) == p + z * z / n / 2.0 && Denominator(n, z) == 1.0 + z * z / n
  {
    HalfRatio(z * z, n);
    Cancels(p + z * z / (2.0 * n), Denominator(n, z));
  }

  lemma MarginOverDenominator(p: real, n: real, z: real, sqrt: real -> real)
    requires n > 0.0
    ensures Margin(p, n, z, sqrt) * Denominator(n, z) == z * sqrt(Discriminant(p, n, z))
  {
    hide Discriminant, Denominator;
    Cancels(z * sqrt(Discriminant(p, n, z)), Denominator(n, z));
  }

  lemma Assembled(p: real, h: real, c: real, m: real, d: real, z: real, r: real, disc: real)
    requires d == 1.0 + h && d >= 1.0 && 0.0 <= p <= 1.0 && z >= 0.0 && r >= 0.0 && r * r == disc
    requires c * d == p + h / 2.0 && m * d == z * r && z * z * disc == h * (p * (1.0 - p)) + h * h / 4.0
    ensures Completes(p, h, c, m)
  {
    SquareOfMargin(m, d, z, r, disc);
  }

  lemma RootFacts(sqrt: real -> real, x: real)
    requires Root(sqrt, x)
    ensures sqrt(x) >= 0.0 && sqrt(x) * sqrt(x) == x
  {}

  // ----- what the interval means -----

  // The clamps never bind: the interval is the unclamped centre and margin.
  lemma ClampsNeverBind(k: int, n: nat, z: real, sqrt: real -> real)
    requires 0 <= k <= n && n > 0 && z >= 0.0 && Root(sqrt, Discriminant(P(k, n), n as real, z))
    ensures var c, m := Center(P(k, n), n as real, z), Margin(P(k, n), n as real, z, sqrt);
      Ci(k, n, z, sqrt) == Bounds(c - m, c + m) && 0.0 <= c - m <= c + m <= 1.0
  {
    hide Center, Margin, Root, Discriminant;
    CiCompletes(k, n, z, sqrt);
    StaysInUnit(P(k, n), z * z / n as real, Center(P(k, n), n as real, z), Margin(P(k, n), n as real, z, sqrt));
  }

  lemma ScoreOverN(x: real, w: real, n: real)
    requires n > 0.0
    ensures w * x / n == w / n * x
  {
    assert (w * x / n) * n == w * x && (w / n * x) * n == w * x;
  }

  lemma ScoreSolved(x: real, p: real, n: real, z: real, c: real, m: real)
    requires n > 0.0 && Completes(p, z * z / n, c, m)
    ensures WithinScore(x, p, n, z) <==> c - m <= x <= c + m
  {
    hide Completes;
    SolvesScore(x, p, z * z / n, c, m);
    ScoreOverN(x * (1.0 - x), z * z, n);
  }

  // A value is inside the interval exactly when it satisfies the score inequality.
  lemma InsideIffWithinScore(k: int, n: nat, z: real, sqrt: real -> real, x: real)
    requires 0 <= k <= n && n > 0 && z >= 0.0 && Root(sqrt, Discriminant(P(k, n), n as real, z))
    ensures Ci(k, n, z, sqrt).Bounds?
    ensures Ci(k, n, z, sqrt).low <= x <= Ci(k, n, z, sqrt).high <==> WithinScore(x, P(k, n), n as real, z)
  {
    hide Center, Margin, Root, Discriminant, Ci, WithinScore, P;
    ClampsNeverBind(k, n, z, sqrt);
    CiCompletes(k, n, z, sqrt);
    ScoreSolved(x, P(k, n), n as real, z, Center(P(k, n), n as real, z), Margin(P(k, n), n as real, z, sqrt));
  }

  // For every count and size: there is an interval exactly if the count is in range, and then it is
  // the set of values that satisfy the score inequality; otherwise nothing is reported for n = 0
  // and a count out of range is an error.
  lemma IntervalIsTheScoreSet(k: int, n: nat, z: real, sqrt: real -> real, x: real)
    requires z >= 0.0 && (n > 0 && 0 <= k <= n ==> Root(sqrt, Discriminant(P(k, n), n as real, z)))
    ensures match Ci(k, n, z, sqrt)
      case Bounds(low, high) => n > 0 && 0 <= k <= n && (low <= x <= high <==> WithinScore(x, P(k, n), n as real, z))
      case NotApplicable => n == 0
      case OutOfRange => n > 0 && !(0 <= k <= n)
  {
    if n > 0 && 0 <= k <= n {
      hide Ci, WithinScore, P, Discriminant, Root;
      InsideIffWithinScore(k, n, z, sqrt, x);
    }
  }

  // The interval contains the observed proportion.
  lemma Brackets(k: int, n: nat, z: real, sqrt: real -> real)
    requires 0 <= k <= n && n > 0 && z >= 0.0 && Root(sqrt, Discriminant(P(k, n), n as real, z))
    ensures Ci(k, n, z, sqrt).Bounds? && Ci(k, n, z, sqrt).low <= P(k, n) <= Ci(k, n, z, sqrt).high
  {
    hide Ci, Root, Discriminant, P;
    var p := P(k, n);
    InsideIffWithinScore(k, n, z, sqrt, p);
    ProportionIsProper(k, n);
    Products(p, 1.0 - p);
    Products(z, z);
    Products(z * z, p * (1.0 - p));
    NonNegativeQuotient(z * z * (p * (1.0 - p)), n as real);
  }

  lemma NonNegativeQuotient(x: real, n: real)
    requires n > 0.0 && x >= 0.0
    ensures x / n >= 0.0
  {}

  lemma PositiveProduct(a: real, b: real, c: real)
    requires a > 0.0 && b > 0.0 && c == a * b
    ensures c > 0.0
  {
    Products(a, -b);
  }

  lemma PositiveQuotient(x: real, n: real)
    requires n > 0.0 && x > 0.0
    ensures x / n > 0.0
  {
    var f := x / n;
    assert f * n == x;
    Products(f, n);
    Products(-f, n);
  }

  lemma SquareOf(z: real) returns (w: real)
    requires z > 0.0
    ensures w == z * z && w > 0.0
  {
    w := z * z;
    PositiveProduct(z, z, w);
  }

  lemma FourSquaresOf(n: real) returns (v: real)
    requires n > 0.0
    ensures v == 4.0 * n * n && v > 0.0
  {
    v := 4.0 * n * n;
    PositiveProduct(4.0 * n, n, v);
  }

  lemma PositiveDiscriminant(p: real, n: real, z: real)
    requires 0.0 <= p <= 1.0 && n > 0.0 && z > 0.0
    ensures Discriminant(p, n, z) > 0.0
  {
    Products(p, 1.0 - p);
    NonNegativeQuotient(p * (1.0 - p), n);
    var w := SquareOf(z);
    var v := FourSquaresOf(n);
    PositiveQuotient(w, v);
  }

  lemma PositiveMargin(m: real, d: real, z: real, r: real, disc: real)
    requires d >= 1.0 && z > 0.0 && r >= 0.0 && r * r == disc && disc > 0.0 && m * d == z * r
    ensures m > 0.0
  {
    assert r > 0.0;
    assert z * r > 0.0;
    Products(m, d);
  }

  // Even at the extremes the interval has positive width.
  lemma NeverDegenerate(k: int, n: nat, z: real, sqrt: real -> real)
    requires 0 <= k <= n && n > 0 && z > 0.0 && Root(sqrt, Discriminant(P(k, n), n as real, z))
    ensures Ci(k, n, z, sqrt).Bounds? && Ci(k, n, z, sqrt).low < Ci(k, n, z, sqrt).high
  {
    hide *;
    var p, N := P(k, n), n as real;
    ClampsNeverBind(k, n, z, sqrt);
    ProportionIsProper(k, n);
    PositiveDiscriminant(p, N, z);
    MarginOverDenominator(p, N, z, sqrt);
    RootFacts(sqrt, Discriminant(p, N, z));
    PositiveMargin(Margin(p, N, z, sqrt), Denominator(N, z), z, sqrt(Discriminant(p, N, z)), Discriminant(p, N, z));
  }

  // ----- symmetry -----

  lemma RestOfWhole(k: real, n: real)
    requires n > 0.0
    ensures (n - k) / n == 1.0 - k / n
  {
    var a, b := (n - k) / n, k / n;
    assert a * n == n - k && b * n == k;
    assert (a + b - 1.0) * n == 0.0;
    NoZeroDivisor(a + b - 1.0, n);
  }

  lemma MirroredProportion(k: int, n: nat)
    requires 0 <= k <= n && n > 0
    ensures P(n - k, n) == 1.0 - P(k, n)
  {
    RestOfWhole(k as real, n as real);
  }

  lemma NoZeroDivisor(a: real, d: real)
    requires d > 0.0 && a * d == 0.0
    ensures a == 0.0
  {}

  // Two centres with one denominator 1 + h whose scaled values add up to it are mirror images.
  lemma MirrorImages(c: real, c': real, p: real, h: real)
    requires h >= 0.0 && c * (1.0 + h) == p + h / 2.0 && c' * (1.0 + h) == 1.0 - p + h / 2.0
    ensures c' == 1.0 - c
  {
    assert (c' + c - 1.0) * (1.0 + h) == c' * (1.0 + h) + c * (1.0 + h) - (1.0 + h);
    NoZeroDivisor(c' + c - 1.0, 1.0 + h);
  }

  lemma MirroredCenter(p: real, n: real, z: real)
    requires n > 0.0
    ensures Center(1.0 - p, n, z) == 1.0 - Center(p, n, z)
  {
    HalfRatio(z * z, n);
    NonNegativeRatio(z, n);
    var d, h := Denominator(n, z), z * z / n;
    var c, c' := Center(p, n, z), Center(1.0 - p, n, z);
    assert c * d == p + h / 2.0;
    assert c' * d == 1.0 - p + h / 2.0;
    MirrorImages(c, c', p, h);
  }

  lemma MirroredDiscriminant(k: int, n: nat, z: real)
    requires 0 <= k <= n && n > 0
    ensures Discriminant(P(n - k, n), n as real, z) == Discriminant(P(k, n), n as real, z)
  {
    MirroredProportion(k, n);
    var p := P(k, n);
    assert p * (1.0 - p) == (1.0 - p) * (1.0 - (1.0 - p));
  }

  // Counting the complement mirrors the interval.
  lemma Symmetric(k: int, n: nat, z: real, sqrt: real -> real)
    requires 0 <= k <= n && n > 0 && z >= 0.0 && Root(sqrt, Discriminant(P(k, n), n as real, z))
    ensures Ci(k, n, z, sqrt).Bounds?
    ensures Ci(n - k, n, z, sqrt) == Bounds(1.0 - Ci(k, n, z, sqrt).high, 1.0 - Ci(k, n, z, sqrt).low)
  {
    hide Ci, Root, P, Center, Discriminant;
    MirroredProportion(k, n);
    MirroredCenter(P(k, n), n as real, z);
    MirroredDiscriminant(k, n, z);
    ClampsNeverBind(k, n, z, sqrt);
    ClampsNeverBind(n - k, n, z, sqrt);
  }

  // ----- monotonicity -----

  lemma SmallerProportion(k: int, l: int, n: nat)
    requires k <= l && n > 0
    ensures P(k, n) <= P(l, n)
  {
    assert P(k, n) * n as real == k as real && P(l, n) * n as real == l as real;
    Products(P(l, n) - P(k, n), n as real);
  }

  lemma CloserIsWithin(x: real, p: real, q: real, n: real, z: real)
    requires n > 0.0 && WithinScore(x, q, n, z) && x <= p <= q
    ensures WithinScore(x, p, n, z)
  {
    SquaresCompare(p - x, q - x);
  }

  // More hits never lower either end.
  lemma LowIsMonotone(k: int, l: int, n: nat, z: real, sqrt: real -> real)
    requires 0 <= k <= l <= n && n > 0 && z >= 0.0
    requires Root(sqrt, Discriminant(P(k, n), n as real, z)) && Root(sqrt, Discriminant(P(l, n), n as real, z))
    ensures Ci(k, n, z, sqrt).Bounds? && Ci(l, n, z, sqrt).Bounds? && Ci(k, n, z, sqrt).low <= Ci(l, n, z, sqrt).low
  {
    hide Ci, Root, Discriminant, P, WithinScore;
    Brackets(k, n, z, sqrt);
    Brackets(l, n, z, sqrt);
    SmallerProportion(k, l, n);
    var x := Ci(l, n, z, sqrt).low;
    if x < P(k, n) {
      InsideIffWithinScore(l, n, z, sqrt, x);
      CloserIsWithin(x, P(k, n), P(l, n), n as real, z);
      InsideIffWithinScore(k, n, z, sqrt, x);
    }
  }

  lemma HighIsMonotone(k: int, l: int, n: nat, z: real, sqrt: real -> real)
    requires 0 <= k <= l <= n && n > 0 && z >= 0.0
    requires Root(sqrt, Discriminant(P(k, n), n as real, z)) && Root(sqrt, Discriminant(P(l, n), n as real, z))
    ensures Ci(k, n, z, sqrt).Bounds? && Ci(l, n, z, sqrt).Bounds? && Ci(k, n, z, sqrt).high <= Ci(l, n, z, sqrt).high
  {
    hide Ci, Discriminant, P;
    MirroredDiscriminant(k, n, z);
    MirroredDiscriminant(l, n, z);
    Symmetric(k, n, z, sqrt);
    Symmetric(l, n, z, sqrt);
    LowIsMonotone(n - l, n - k, n, z, sqrt);
  }
}
