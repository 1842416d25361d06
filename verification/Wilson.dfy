/** The Wilson score interval in exact arithmetic. */
module Wilson {

  datatype WilsonOut = Interval(lower: real, upper: real) | ValueError

  /** The estimate and the squared width per trial. */
  function Estimate(successes: int, trials: int): real
    requires trials > 0
  {
    successes as real / trials as real
  }

  function Width(trials: int, z: real): real
    requires trials > 0
  {
    Share(z * z, trials)
  }

  function Share(square: real, trials: int): real
    requires trials > 0
  {
    square / trials as real
  }

  /** What the square root is taken of. */
  function Radicand(p: real, trials: int, z: real): real
    requires trials > 0
  {
    Spread(p, trials, z * z)
  }

  function Spread(p: real, trials: int, square: real): real
    requires trials > 0
  {
    (p * (1.0 - p) + square / (4.0 * trials as real)) / trials as real
  }

  function Max(a: real, b: real): real { if a >= b then a else b }
  function Min(a: real, b: real): real { if a <= b then a else b }

  /** `wilson_score_interval`; `root` is the square root it takes. */
  function Score(successes: int, trials: int, z: real, root: real): WilsonOut {
    if trials < 0 then ValueError
    else if successes < 0 || successes > trials then ValueError
    else if trials == 0 then Interval(0.0, 1.0)
    else
      var p := Estimate(successes, trials);
      var denominator := 1.0 + Width(trials, z);
      assert denominator >= 1.0 by { WidthIsNonnegative(trials, z); }
      var center := (p + z * z / (2.0 * trials as real)) / denominator;
      var radius := z * root / denominator;
      var lower, upper := Max(0.0, center - radius), Min(1.0, center + radius);
      Interval(if successes == 0 then 0.0 else lower, if successes == trials then 1.0 else upper)
  }

  lemma WidthIsNonnegative(trials: int, z: real)
    requires trials > 0
    ensures Width(trials, z) >= 0.0
  {
    assert z * z >= 0.0;
  }

  // ----- the quadratic -----

  /** (x - p)² - k x (1 - x): not positive between the two bounds, positive outside. */
  function Excess(x: real, p: real, k: real): real { (x - p) * (x - p) - k * (x * (1.0 - x)) }

  /** `c` and `r` are center and radius for estimate `p` and width `k`, before clamping. */
  predicate IsCircle(p: real, k: real, c: real, r: real) {
    && k >= 0.0 && 0.0 <= p <= 1.0 && r >= 0.0
    && (1.0 + k) * c == p + k / 2.0
    && ((1.0 + k) * r) * ((1.0 + k) * r) == k * (p * (1.0 - p) + k / 4.0)
  }

  lemma Factors(x: real, p: real, k: real, c: real, r: real)
    requires IsCircle(p, k, c, r)
    ensures (1.0 + k) * Excess(x, p, k) ==
            ((1.0 + k) * x - (1.0 + k) * c) * ((1.0 + k) * x - (1.0 + k) * c) - ((1.0 + k) * r) * ((1.0 + k) * r)
  {
    var d := 1.0 + k;
    var m := p + k / 2.0;
    var y := d * x;
    assert (y - m) * (y - m) == y * y - 2.0 * (m * y) + m * m;
    assert m * m == p * p + k * p + k * k / 4.0;
    assert k * (p * (1.0 - p) + k / 4.0) == k * p - k * (p * p) + k * k / 4.0;
    assert Excess(x, p, k) == d * (x * x) - 2.0 * (m * x) + p * p;
    assert d * (d * (x * x)) == y * y;
    assert d * (m * x) == m * y;
    Expand(d, d * (x * x), 2.0 * (m * x), p * p);
    assert d * (p * p) == p * p + k * (p * p);
  }

  lemma Expand(d: real, a: real, b: real, c: real)
    ensures d * (a - b + c) == d * a - d * b + d * c
  {
  }

  lemma SquareOrder(a: real, b: real)
    requires b >= 0.0
    ensures a * a <= b * b <==> -b <= a <= b
    ensures a * a == b * b <==> a == b || a == -b
  {
    assert b * b - a * a == (b - a) * (b + a);
    if -b <= a <= b {
      assert (b - a) * (b + a) >= 0.0;
    } else if a > b {
      Negative(a - b, a + b);
    } else {
      Negative(b - a, -(a + b));
    }
    if a != b && a != -b {
      if -b < a < b { Negative(b - a, b + a); }
    }
  }

  lemma Negative(x: real, y: real)
    requires x > 0.0 && y > 0.0
    ensures x * y > 0.0
  {
  }

  lemma Scale(d: real, x: real, lo: real, hi: real)
    requires d > 0.0
    ensures d * lo <= d * x <= d * hi <==> lo <= x <= hi
    ensures d * x == d * lo <==> x == lo
  {
    if x < lo { Negative(d, lo - x); }
    if x > hi { Negative(d, x - hi); }
    if x > lo { Negative(d, x - lo); }
  }

  lemma Signs(d: real, e: real)
    requires d > 0.0
    ensures d * e <= 0.0 <==> e <= 0.0
    ensures d * e == 0.0 <==> e == 0.0
  {
    if e > 0.0 { Negative(d, e); }
    if e < 0.0 { Negative(d, -e); }
  }

  /** The bounds are the two roots, and the points between them those where the excess is not
      positive. */
  lemma BoundsAreTheRoots(x: real, p: real, k: real, c: real, r: real)
    requires IsCircle(p, k, c, r)
    ensures Excess(x, p, k) == 0.0 <==> x == c - r || x == c + r
    ensures Excess(x, p, k) <= 0.0 <==> c - r <= x <= c + r
  {
    var d, e := 1.0 + k, Excess(x, p, k);
    var a, b := d * x - d * c, d * r;
    Factors(x, p, k, c, r);
    assert b >= 0.0;
    SquareOrder(a, b);
    Signs(d, e);
    assert d * (c - r) == d * c - d * r && d * (c + r) == d * c + d * r;
    Scale(d, x, c - r, c + r);
    Scale(d, x, c + r, c + r);
  }

  lemma NonNegative(a: real, b: real)
    requires a >= 0.0 && b >= 0.0
    ensures a * b >= 0.0
  {
  }

  lemma ExcessAtEnds(p: real, k: real)
    requires 0.0 <= p <= 1.0 && k >= 0.0
    ensures Excess(0.0, p, k) >= 0.0 && (p == 0.0 ==> Excess(0.0, p, k) == 0.0)
    ensures Excess(1.0, p, k) >= 0.0 && (p == 1.0 ==> Excess(1.0, p, k) == 0.0)
    ensures Excess(p, p, k) <= 0.0
  {
    assert Excess(0.0, p, k) == p * p;
    assert Excess(1.0, p, k) == (1.0 - p) * (1.0 - p);
    NonNegative(p, p);
    NonNegative(1.0 - p, 1.0 - p);
    NonNegative(p, 1.0 - p);
    NonNegative(k, p * (1.0 - p));
    assert Excess(p, p, k) == -(k * (p * (1.0 - p)));
  }

  lemma InRange(p: real, k: real, c: real, r: real)
    requires IsCircle(p, k, c, r)
    ensures 0.0 <= c - r <= p <= c + r <= 1.0
    ensures p == 0.0 ==> c - r == 0.0
    ensures p == 1.0 ==> c + r == 1.0
  {
    ExcessAtEnds(p, k);
    BoundsAreTheRoots(p, p, k, c, r);
    Outside(0.0, p, k, c, r);
    Outside(1.0, p, k, c, r);
    CenterInRange(p, k, c);
  }

  lemma CenterInRange(p: real, k: real, c: real)
    requires 0.0 <= p <= 1.0 && k >= 0.0 && (1.0 + k) * c == p + k / 2.0
    ensures 0.0 <= c <= 1.0
  {
    if c < 0.0 { Negative(1.0 + k, -c); }
    if c > 1.0 { Negative(1.0 + k, c - 1.0); }
  }

  /** Where the excess is not negative one is not strictly between the bounds. */
  lemma Outside(x: real, p: real, k: real, c: real, r: real)
    requires IsCircle(p, k, c, r) && Excess(x, p, k) >= 0.0
    ensures x <= c - r || c + r <= x
    ensures Excess(x, p, k) == 0.0 ==> x == c - r || x == c + r
  {
    BoundsAreTheRoots(x, p, k, c, r);
  }

  /** Both bounds grow with the estimate. */
  lemma BoundsGrow(p: real, q: real, k: real, c: real, r: real, c': real, r': real)
    requires IsCircle(p, k, c, r) && IsCircle(q, k, c', r') && p <= q
    ensures c - r <= c' - r' && c + r <= c' + r'
  {
    InRange(p, k, c, r);
    InRange(q, k, c', r');
    var lower, upper := c' - r', c + r;
    BoundsAreTheRoots(lower, q, k, c', r');
    BoundsAreTheRoots(upper, p, k, c, r);
    if lower < p {
      Nearer(lower, q, p, k);
      BoundsAreTheRoots(lower, p, k, c, r);
    }
    if upper > q {
      Nearer(upper, p, q, k);
      BoundsAreTheRoots(upper, q, k, c', r');
    }
  }

  /** A point nearer to `b` than to `a` has the smaller excess at `b`. */
  lemma Nearer(x: real, a: real, b: real, k: real)
    requires (x <= b <= a) || (a <= b <= x)
    ensures Excess(x, b, k) <= Excess(x, a, k)
  {
    var u, v := x - b, x - a;
    SquareOrder(u, if v >= 0.0 then v else -v);
    assert (-v) * (-v) == v * v;
  }

  // ----- the function -----

  /** `root` is the square root the function takes, which does not depend on the deviate's sign. */
  predicate IsRoot(successes: int, trials: int, z: real, root: real) {
    && 0 <= successes <= trials && trials > 0 && root >= 0.0
    && root * root == Radicand(Estimate(successes, trials), trials, z)
  }

  function Center(p: real, k: real): real
    requires k >= 0.0
  {
    (p + k / 2.0) / (1.0 + k)
  }

  function Radius(z: real, root: real, k: real): real
    requires k >= 0.0
  {
    z * root / (1.0 + k)
  }

  lemma Halves(trials: int, z: real)
    requires trials > 0
    ensures Width(trials, z) >= 0.0
    ensures z * z / (2.0 * trials as real) == Width(trials, z) / 2.0
    ensures z * z / (4.0 * trials as real) == Width(trials, z) / 4.0
  {
    WidthIsNonnegative(trials, z);
    var n, y := trials as real, z * z;
    Shared(y, n, 2.0);
    Shared(y, n, 4.0);
  }

  lemma Shared(y: real, n: real, m: real)
    requires n > 0.0 && m > 0.0
    ensures m * n > 0.0 && y / (m * n) == y / n / m
  {
    var w := y / n / m;
    assert w * m == y / n;
    assert w * m * n == y;
    assert w * (m * n) == y;
  }

  lemma EstimateInRange(successes: int, trials: int)
    requires 0 <= successes <= trials && trials > 0
    ensures 0.0 <= Estimate(successes, trials) <= 1.0
    ensures Estimate(successes, trials) == 0.0 <==> successes == 0
    ensures Estimate(successes, trials) == 1.0 <==> successes == trials
  {
    var p, n := Estimate(successes, trials), trials as real;
    assert p * n == successes as real;
    if p < 0.0 { Negative(-p, n); }
    if p > 1.0 { Negative(p - 1.0, n); }
  }

  /** z² root² is what the quadratic needs. */
  lemma RootSquared(p: real, trials: int, z: real, root: real)
    requires trials > 0 && root * root == Radicand(p, trials, z)
    ensures (z * root) * (z * root) == Width(trials, z) * (p * (1.0 - p) + Width(trials, z) / 4.0)
  {
    Halves(trials, z);
    var n, k := trials as real, Width(trials, z);
    var a := p * (1.0 - p) + k / 4.0;
    assert root * root == a / n;
    assert (z * root) * (z * root) == (z * z) * (root * root);
    assert (root * root) * n == a;
    assert k * n == z * z;
    Regroup(k, n, root * root, a);
  }

  lemma Regroup(k: real, n: real, s: real, a: real)
    requires s * n == a
    ensures (k * n) * s == k * a
  {
  }

  lemma ScoreIsCircle(successes: int, trials: int, z: real, root: real)
    requires IsRoot(successes, trials, z, root) && z >= 0.0
    ensures var p, k := Estimate(successes, trials), Width(trials, z);
            k >= 0.0 && IsCircle(p, k, Center(p, k), Radius(z, root, k))
  {
    var p, k := Estimate(successes, trials), Width(trials, z);
    Halves(trials, z);
    EstimateInRange(successes, trials);
    RootSquared(p, trials, z, root);
    Undivide(p + k / 2.0, 1.0 + k);
    assert z * root >= 0.0;
    Undivide(z * root, 1.0 + k);
  }

  lemma Undivide(x: real, d: real)
    requires d > 0.0
    ensures d * (x / d) == x
    ensures x >= 0.0 ==> x / d >= 0.0
  {
    var q := x / d;
    if q < 0.0 { Negative(d, -q); }
  }

  /** For a deviate that is not negative the interval is the pair of roots themselves. */
  lemma PositiveScore(successes: int, trials: int, z: real, root: real)
    requires IsRoot(successes, trials, z, root) && z >= 0.0
    ensures var p, k, w := Estimate(successes, trials), Width(trials, z), Score(successes, trials, z, root);
            && w.Interval? && k >= 0.0
            && w == Interval(Center(p, k) - Radius(z, root, k), Center(p, k) + Radius(z, root, k))
            && 0.0 <= w.lower <= p <= w.upper <= 1.0
            && (successes == 0 ==> w.lower == 0.0) && (successes == trials ==> w.upper == 1.0)
            && forall x {:trigger Excess(x, p, k)} :: Excess(x, p, k) == 0.0 <==> x == w.lower || x == w.upper
  {
    var p, k := Estimate(successes, trials), Width(trials, z);
    ScoreIsCircle(successes, trials, z, root);
    var c, r := Center(p, k), Radius(z, root, k);
    InRange(p, k, c, r);
    EstimateInRange(successes, trials);
    Halves(trials, z);
    forall x ensures Excess(x, p, k) == 0.0 <==> x == c - r || x == c + r { BoundsAreTheRoots(x, p, k, c, r); }
  }

  function Abs(z: real): real { if z >= 0.0 then z else -z }

  /** The roots, for a deviate of either sign. */
  function Roots(successes: int, trials: int, z: real, root: real): (w: WilsonOut)
    requires 0 <= successes <= trials && trials > 0
    ensures w.Interval?
  {
    WidthIsNonnegative(trials, z);
    var p, k := Estimate(successes, trials), Width(trials, z);
    Interval(Center(p, k) - Radius(Abs(z), root, k), Center(p, k) + Radius(Abs(z), root, k))
  }

  lemma SignlessRoot(successes: int, trials: int, z: real, root: real)
    requires IsRoot(successes, trials, z, root)
    ensures IsRoot(successes, trials, Abs(z), root) && Width(trials, Abs(z)) == Width(trials, z)
    ensures Roots(successes, trials, Abs(z), root) == Roots(successes, trials, z, root)
  {
    SameSquare(successes, trials, z, Abs(z), root);
  }

  lemma SameSquare(successes: int, trials: int, z: real, y: real, root: real)
    requires IsRoot(successes, trials, z, root) && (y == z || y == -z)
    ensures IsRoot(successes, trials, y, root) && Width(trials, y) == Width(trials, z)
  {
    assert y * y == z * z;
  }

  /** The function in terms of center and radius. */
  lemma ScoreIsClamped(successes: int, trials: int, z: real, root: real)
    requires 0 <= successes <= trials && trials > 0
    ensures var p, k := Estimate(successes, trials), Width(trials, z);
            && k >= 0.0
            && Score(successes, trials, z, root) ==
               Interval(if successes == 0 then 0.0 else Max(0.0, Center(p, k) - Radius(z, root, k)),
                        if successes == trials then 1.0 else Min(1.0, Center(p, k) + Radius(z, root, k)))
  {
    Halves(trials, z);
  }

  /** The roots lie in [0, 1] with the estimate between them. For a deviate that is not negative they
      are the interval: neither the clamps nor the snaps change it. A negative one exchanges them, but
      for the bound that is snapped at no successes or nothing but successes. */
  lemma ScoreIsTheRoots(successes: int, trials: int, z: real, root: real)
    requires IsRoot(successes, trials, z, root)
    ensures var p, k, w := Estimate(successes, trials), Width(trials, z), Roots(successes, trials, z, root);
            && Score(successes, trials, z, root) ==
               Interval(if z >= 0.0 || successes == 0 then w.lower else w.upper,
                        if z >= 0.0 || successes == trials then w.upper else w.lower)
            && 0.0 <= w.lower <= p <= w.upper <= 1.0
            && (successes == 0 ==> w.lower == 0.0) && (successes == trials ==> w.upper == 1.0)
            && forall x {:trigger Excess(x, p, k)} :: Excess(x, p, k) == 0.0 <==> x == w.lower || x == w.upper
  {
    SignlessRoot(successes, trials, z, root);
    PositiveScore(successes, trials, Abs(z), root);
    ScoreIsClamped(successes, trials, z, root);
    NegativeRadius(z, root, Width(trials, z));
    hide Score, Width, Estimate, Center, Radius, IsRoot, Excess;
  }

  /** The two bounds are in order exactly for a deviate that is not negative, or at the extremes. */
  lemma BoundsAreOrderedIff(successes: int, trials: int, z: real, root: real)
    requires IsRoot(successes, trials, z, root)
    ensures var w := Score(successes, trials, z, root);
            w.Interval? && (w.lower <= w.upper <==> z >= 0.0 || successes == 0 || successes == trials)
  {
    ScoreIsTheRoots(successes, trials, z, root);
    if z < 0.0 && 0 < successes < trials {
      var p, k := Estimate(successes, trials), Width(trials, z);
      var w := Roots(successes, trials, z, root);
      EstimateInRange(successes, trials);
      InsideHasExcess(p, trials, z);
      assert Excess(p, p, k) < 0.0;
      assert w.lower != p && w.upper != p;
    }
  }

  /** The estimate itself is no root strictly between the extremes. */
  lemma InsideHasExcess(p: real, trials: int, z: real)
    requires 0.0 < p < 1.0 && trials > 0 && z < 0.0
    ensures Excess(p, p, Width(trials, z)) < 0.0
  {
    PositiveWidth(trials, z, z * z);
    var k := Width(trials, z);
    Negative(p, 1.0 - p);
    Negative(k, p * (1.0 - p));
    assert Excess(p, p, k) == -(k * (p * (1.0 - p)));
  }

  lemma BothNegative(a: real, b: real, product: real)
    requires a < 0.0 && b < 0.0 && product == a * b
    ensures product > 0.0
  {
    Negative(-a, -b);
  }

  lemma PositiveWidth(trials: int, z: real, square: real)
    requires z < 0.0 && trials > 0 && square == z * z
    ensures Share(square, trials) > 0.0
  {
    BothNegative(z, z, square);
    PositiveShare(square, trials);
  }

  lemma PositiveShare(y: real, trials: int)
    requires y > 0.0 && trials > 0
    ensures Share(y, trials) > 0.0
  {
    var q, n := Share(y, trials), trials as real;
    assert q * n == y;
    if q <= 0.0 { NonNegative(-q, n); }
  }

  lemma RootsGrow(s: int, t: int, trials: int, z: real, root: real, root': real)
    requires IsRoot(s, trials, z, root) && IsRoot(t, trials, z, root') && s <= t
    ensures var v, w := Roots(s, trials, z, root), Roots(t, trials, z, root');
            v.lower <= w.lower && v.upper <= w.upper
  {
    SignlessRoot(s, trials, z, root);
    SignlessRoot(t, trials, z, root');
    var p, q, k := Estimate(s, trials), Estimate(t, trials), Width(trials, z);
    ScoreIsCircle(s, trials, Abs(z), root);
    ScoreIsCircle(t, trials, Abs(z), root');
    Ordered(s, t, trials);
    BoundsGrow(p, q, k, Center(p, k), Radius(Abs(z), root, k), Center(q, k), Radius(Abs(z), root', k));
  }

  /** More successes never lower either bound, whatever the deviate. */
  lemma ScoreGrows(s: int, t: int, trials: int, z: real, root: real, root': real)
    requires IsRoot(s, trials, z, root) && IsRoot(t, trials, z, root') && s <= t
    ensures var v, w := Score(s, trials, z, root), Score(t, trials, z, root');
            v.Interval? && w.Interval? && v.lower <= w.lower && v.upper <= w.upper
  {
    ScoreIsTheRoots(s, trials, z, root);
    ScoreIsTheRoots(t, trials, z, root');
    RootsGrow(s, t, trials, z, root, root');
  }

  lemma Ordered(s: int, t: int, trials: int)
    requires s <= t && trials > 0
    ensures Estimate(s, trials) <= Estimate(t, trials)
  {
    var p, q, n := Estimate(s, trials), Estimate(t, trials), trials as real;
    assert p * n == s as real && q * n == t as real;
    if p > q { Negative(p - q, n); }
  }

  /** A negative deviate is not refused: strictly between the extremes it gives the interval of the
      positive one with its bounds exchanged. */
  lemma NegativeDeviateExchangesBounds(successes: int, trials: int, z: real, root: real)
    requires IsRoot(successes, trials, z, root) && 0 < successes < trials
    ensures var w := Score(successes, trials, z, root);
            w.Interval? && Score(successes, trials, -z, root) == Interval(w.upper, w.lower)
  {
    SameSquare(successes, trials, z, -z, root);
    ScoreIsTheRoots(successes, trials, z, root);
    ScoreIsTheRoots(successes, trials, -z, root);
    if z == 0.0 {
      Halves(trials, z);
      NegativeRadius(z, root, Width(trials, z));
      assert Radius(-z, root, Width(trials, z)) == Radius(z, root, Width(trials, z));
    }
  }

  lemma NegativeRadius(z: real, root: real, k: real)
    requires k >= 0.0
    ensures Radius(-z, root, k) == -Radius(z, root, k)
  {
    assert (-z) * root == -(z * root);
  }
}
