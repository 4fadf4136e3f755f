/** The Wilson score interval of src/evaluation/analysis.ts, over exact reals. */
module Wilson {
  import opened Wrappers

  datatype Interval = Interval(lower: real, upper: real)

  const Z: real := 1.96

  function Rate(successes: nat, total: nat): real
    requires total > 0
  {
    successes as real / total as real
  }

  /** What is under the square root. */
  function Radicand(successes: nat, total: nat): real
    requires total > 0
  {
    var p := Rate(successes, total);
    (p * (1.0 - p) + Z * Z / (4.0 * total as real)) / total as real
  }

  /** `root` is what `Math.sqrt` returns: the non-negative square root. */
  ghost predicate IsRoot(root: real, square: real) { root >= 0.0 && root * root == square }

  function Denominator(total: nat): real
    requires total > 0
  {
    1.0 + Z * Z / total as real
  }

  function Centre(successes: nat, total: nat): real
    requires total > 0
  {
    assert Z * Z / total as real > 0.0;
    (Rate(successes, total) + Z * Z / (2.0 * total as real)) / Denominator(total)
  }

  function Margin(total: nat, root: real): real
    requires total > 0
  {
    assert Z * Z / total as real > 0.0;
    Z * root / Denominator(total)
  }

  /** `root` stands for the square root of the radicand; it is not taken when `total` is zero. */
  function Wilson95(successes: nat, total: nat, root: real): Option<Interval> {
    if total == 0 then None
    else
      var centre, margin := Centre(successes, total), Margin(total, root);
      Some(Interval(centre - margin, centre + margin))
  }

  /** `q` is a rate from which the observed one is exactly 1.96 standard errors away. */
  ghost predicate OnTheBoundary(successes: nat, total: nat, q: real)
    requires total > 0
  {
    var p := successes as real / total as real;
    total as real * ((p - q) * (p - q)) == 1.96 * 1.96 * (q * (1.0 - q))
  }

  /** The quadratic whose roots are sought, divided by `total`; `k` is Z*Z/total. */
  function Quadratic(p: real, k: real, q: real): real {
    (1.0 + k) * q * q - 2.0 * q * (p + k / 2.0) + p * p
  }

  lemma BoundaryIsQuadratic(successes: nat, total: nat, q: real)
    requires total > 0
    ensures OnTheBoundary(successes, total, q) <==>
      Quadratic(Rate(successes, total), Z * Z / total as real, q) == 0.0
  {
    var n, p := total as real, Rate(successes, total);
    var k := Z * Z / n;
    assert n * k == Z * Z;
    assert n * Quadratic(p, k, q) == n * ((p - q) * (p - q)) - Z * Z * (q * (1.0 - q)) by {
      assert Quadratic(p, k, q) == (p - q) * (p - q) - k * (q * (1.0 - q));
      assert n * (k * (q * (1.0 - q))) == (n * k) * (q * (1.0 - q));
    }
  }

  /** What the centre `c` and the half-width `m` of the code satisfy. */
  ghost predicate Solves(p: real, k: real, c: real, m: real) {
    && k > 0.0 && m >= 0.0
    && (1.0 + k) * c == p + k / 2.0
    && (1.0 + k) * (c * c - m * m) == p * p
  }

  /** Completing the square. */
  lemma Factored(p: real, k: real, c: real, m: real, q: real)
    requires Solves(p, k, c, m)
    ensures Quadratic(p, k, q) == (1.0 + k) * ((q - (c - m)) * (q - (c + m)))
  {
    var d := 1.0 + k;
    assert (q - (c - m)) * (q - (c + m)) == q * q - 2.0 * q * c + (c * c - m * m);
    assert d * ((q - (c - m)) * (q - (c + m))) == d * q * q - 2.0 * q * (d * c) + d * (c * c - m * m);
  }

  lemma CentreScaled(successes: nat, total: nat)
    requires total > 0
    ensures var k := Z * Z / total as real;
      k > 0.0 && (1.0 + k) * Centre(successes, total) == Rate(successes, total) + k / 2.0
  {
    hide Rate;
    var n := total as real;
    var k := Z * Z / n;
    assert k > 0.0;
    assert Z * Z / (2.0 * n) == k / 2.0;
  }

  lemma MarginScaled(total: nat, root: real)
    requires total > 0 && root >= 0.0
    ensures var k := Z * Z / total as real;
      k > 0.0 && (1.0 + k) * Margin(total, root) == Z * root && Margin(total, root) >= 0.0
  {
    var k := Z * Z / total as real;
    assert k > 0.0;
    assert (1.0 + k) * Margin(total, root) == Z * root;
  }

  lemma CentreAndMargin(successes: nat, total: nat, root: real)
    requires total > 0 && IsRoot(root, Radicand(successes, total))
    ensures Solves(Rate(successes, total), Z * Z / total as real, Centre(successes, total), Margin(total, root))
  {
    CentreScaled(successes, total);
    MarginScaled(total, root);
    RadicandScaled(successes, total);
    hide Rate, Centre, Margin, Radicand;
    var p, k := Rate(successes, total), Z * Z / total as real;
    var c, m := Centre(successes, total), Margin(total, root);
    Squares(p, k, c, m, (1.0 + k) * c, (1.0 + k) * m);
  }

  lemma Squares(p: real, k: real, c: real, m: real, dc: real, dm: real)
    requires k > 0.0 && dc == (1.0 + k) * c && dm == (1.0 + k) * m
    requires dc == p + k / 2.0 && dm * dm == k * (p * (1.0 - p)) + k * k / 4.0
    ensures (1.0 + k) * (c * c - m * m) == p * p
  {
    var d := 1.0 + k;
    assert dc * dc == p * p + p * k + k * k / 4.0;
    assert dc * dc - dm * dm == d * (p * p);
    assert d * (d * (c * c - m * m)) == dc * dc - dm * dm;
    Cancel(d, d * (c * c - m * m), p * p);
  }

  lemma Cancel(d: real, x: real, y: real)
    requires d != 0.0 && d * x == d * y
    ensures x == y
  {
  }

  lemma RadicandScaled(successes: nat, total: nat)
    requires total > 0
    ensures var p := Rate(successes, total); var k := Z * Z / total as real;
      Z * Z * Radicand(successes, total) == k * (p * (1.0 - p)) + k * k / 4.0
  {
    var n, p := total as real, Rate(successes, total);
    var k := Z * Z / n;
    assert Z * Z / (4.0 * n) == k / 4.0;
    var inner := p * (1.0 - p) + k / 4.0;
    assert Radicand(successes, total) == inner / n;
    assert Z * Z * (inner / n) == k * inner;
  }

  lemma SameSign(d: real, x: real, y: real)
    requires d > 0.0 && ((x < 0.0 && y < 0.0) || (x > 0.0 && y > 0.0))
    ensures d * (x * y) > 0.0
  {
    assert x * y > 0.0;
  }

  lemma ZeroProduct(d: real, x: real, y: real)
    requires d > 0.0
    ensures d * (x * y) == 0.0 <==> x == 0.0 || y == 0.0
  {
  }

  lemma SolutionsAre(p: real, k: real, c: real, m: real, q: real)
    requires Solves(p, k, c, m)
    ensures Quadratic(p, k, q) == 0.0 <==> q == c - m || q == c + m
  {
    Factored(p, k, c, m, q);
    ZeroProduct(1.0 + k, q - (c - m), q - (c + m));
  }

  /** The bounds are exactly the two solutions. */
  lemma BoundsAreTheRoots(successes: nat, total: nat, root: real, q: real)
    requires total > 0 && IsRoot(root, Radicand(successes, total))
    ensures Wilson95(successes, total, root).Some?
    ensures var interval := Wilson95(successes, total, root).value;
      && (OnTheBoundary(successes, total, q) <==> q == interval.lower || q == interval.upper)
      && interval.lower <= interval.upper
  {
    CentreAndMargin(successes, total, root);
    BoundaryIsQuadratic(successes, total, q);
    SolutionsAre(Rate(successes, total), Z * Z / total as real, Centre(successes, total), Margin(total, root), q);
  }

  /** Where the quadratic is not positive, and therefore at the observed rate, is between its roots. */
  lemma RateBetween(p: real, k: real, c: real, m: real)
    requires Solves(p, k, c, m) && 0.0 <= p <= 1.0
    ensures c - m <= p <= c + m
  {
    Factored(p, k, c, m, p);
    assert Quadratic(p, k, p) == -(k * (p * (1.0 - p)));
    NotNegative(p, 1.0 - p);
    NotNegative(k, p * (1.0 - p));
    StraddlesZero(1.0 + k, p - (c - m), p - (c + m));
  }

  lemma LowerNonNegative(p: real, k: real, c: real, m: real)
    requires Solves(p, k, c, m) && p >= 0.0
    ensures 0.0 <= c - m
  {
    var d := 1.0 + k;
    assert c > 0.0 by {
      assert d * c > 0.0;
    }
    assert d * ((c - m) * (c + m)) == p * p;
    NotNegative(p, p);
    OtherFactor(d, c - m, c + m);
  }

  lemma NotNegative(x: real, y: real)
    requires (x >= 0.0 && y >= 0.0) || (x <= 0.0 && y <= 0.0)
    ensures x * y >= 0.0
  {
  }

  lemma StraddlesZero(d: real, x: real, y: real)
    requires d > 0.0 && x >= y && d * (x * y) <= 0.0
    ensures y <= 0.0 <= x
  {
    if x < 0.0 || y > 0.0 {
      SameSign(d, x, y);
    }
  }

  lemma OtherFactor(d: real, x: real, y: real)
    requires d > 0.0 && y > 0.0 && d * (x * y) >= 0.0
    ensures x >= 0.0
  {
    if x < 0.0 {
      SameSign(d, -x, y);
    }
  }

  /** Reflecting rate and centre about one half gives another solution. */
  lemma Reflected(p: real, k: real, c: real, m: real)
    requires Solves(p, k, c, m)
    ensures Solves(1.0 - p, k, 1.0 - c, m)
  {
    var d := 1.0 + k;
    assert d * (1.0 - c) == (1.0 - p) + k / 2.0;
    assert d * ((1.0 - c) * (1.0 - c) - m * m) == d - 2.0 * (d * c) + d * (c * c - m * m);
  }

  /** 0 <= lower <= successes/total <= upper <= 1. */
  lemma BoundsOrder(successes: nat, total: nat, root: real)
    requires total > 0 && successes <= total && IsRoot(root, Radicand(successes, total))
    ensures Wilson95(successes, total, root).Some?
    ensures var interval := Wilson95(successes, total, root).value;
      0.0 <= interval.lower <= successes as real / total as real <= interval.upper <= 1.0
  {
    var p, k := Rate(successes, total), Z * Z / total as real;
    var c, m := Centre(successes, total), Margin(total, root);
    CentreAndMargin(successes, total, root);
    assert 0.0 <= p <= 1.0;
    RateBetween(p, k, c, m);
    LowerNonNegative(p, k, c, m);
    Reflected(p, k, c, m);
    LowerNonNegative(1.0 - p, k, 1.0 - c, m);
  }

  lemma MirroredRate(successes: nat, total: nat)
    requires total > 0 && successes <= total
    ensures Rate(total - successes, total) == 1.0 - Rate(successes, total)
  {
    SumOfQuotients((total - successes) as real, successes as real, total as real);
  }

  lemma SumOfQuotients(a: real, b: real, d: real)
    requires d != 0.0 && a + b == d
    ensures a / d == 1.0 - b / d
  {
    assert a / d + b / d == d / d;
  }

  /** Swapping passes and failures mirrors the interval about one half. */
  lemma Mirrored(successes: nat, total: nat, root: real)
    requires total > 0 && successes <= total
    ensures Radicand(total - successes, total) == Radicand(successes, total)
    ensures Wilson95(successes, total, root).Some? && Wilson95(total - successes, total, root).Some?
    ensures var here, there := Wilson95(successes, total, root).value, Wilson95(total - successes, total, root).value;
      there.lower == 1.0 - here.upper && there.upper == 1.0 - here.lower
  {
    MirroredRate(successes, total);
    var n, p := total as real, Rate(successes, total);
    var k := Z * Z / n;
    assert k > 0.0;
    assert Z * Z / (2.0 * n) == k / 2.0;
    SumOfQuotients(1.0 - p + k / 2.0, p + k / 2.0, 1.0 + k);
  }
}
