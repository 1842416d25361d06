/** Krippendorff's ordinal alpha as an agreement of mid-ranks: every rating stands at its mid-rank
    among all the ratings, and alpha compares the spread inside the units with the spread of all. */
module MidRanks {

  // ----- mid-ranks -----

  /** What one rating adds to the position of `v`: a rank if below it, half a rank if equal. */
  function Place(r: real, v: real): real {
    if r < v then 1.0 else if r == v then 0.5 else 0.0
  }

  function Mid(all: seq<real>, v: real): real {
    if all == [] then 0.0 else Place(all[0], v) + Mid(all[1..], v)
  }

  lemma {:induction false} MidConcat(a: seq<real>, b: seq<real>, v: real)
    ensures Mid(a + b, v) == Mid(a, v) + Mid(b, v)
  {
    if a == [] {
      assert a + b == b;
    } else {
      assert (a + b)[1..] == a[1..] + b;
      MidConcat(a[1..], b, v);
    }
  }

  /** Two values that occur have different positions. */
  lemma {:induction false} MidMonotone(all: seq<real>, v: real, w: real)
    requires v < w
    ensures Mid(all, v) <= Mid(all, w)
    ensures v in all ==> Mid(all, v) < Mid(all, w)
  {
    if all != [] {
      MidMonotone(all[1..], v, w);
      assert v in all ==> v == all[0] || v in all[1..];
    }
  }

  lemma PositionsDiffer(all: seq<real>, v: real, w: real)
    requires v in all && w in all
    ensures Mid(all, v) == Mid(all, w) <==> v == w
  {
    if v < w { MidMonotone(all, v, w); }
    if w < v { MidMonotone(all, w, v); }
  }

  // ----- spread -----

  function Power(x: real, p: nat): (y: real)
    ensures p == 2 ==> y >= 0.0
  {
    if p == 0 then 1.0 else if p == 1 then x else Square(x)
  }

  /** Sum of the p-th powers of the ratings' positions. */
  function Moment(u: seq<real>, all: seq<real>, p: nat): real {
    if u == [] then 0.0 else Power(Mid(all, u[0]), p) + Moment(u[1..], all, p)
  }

  function Square(x: real): (y: real)
    ensures y >= 0.0
  {
    x * x
  }

  function Times(a: real, b: real): real { a * b }

  lemma Positive(a: real, b: real)
    requires a > 0.0 && b > 0.0
    ensures Times(a, b) > 0.0
  {
  }

  lemma SquareZero(x: real)
    ensures Square(x) == 0.0 <==> x == 0.0
  {
    if x > 0.0 {
      Positive(x, x);
      assert Square(x) == Times(x, x);
    } else if x < 0.0 {
      Positive(-x, -x);
      assert Square(x) == Times(-x, -x);
    } else {
      assert Square(0.0) == 0.0;
    }
  }

  /** Sum of squared distances from `x`, and the variance times the size, of positions given by
      their number, sum and sum of squares. */
  function Parabola(k: real, s: real, q: real, x: real): real { k * Square(x) - 2.0 * (x * s) + q }

  function Variance(k: real, s: real, q: real): real { k * q - Square(s) }

  lemma ParabolaStep(m: real, k: real, s: real, q: real, x: real)
    ensures Parabola(1.0 + k, m + s, Square(m) + q, x) == Square(x - m) + Parabola(k, s, q, x)
  {
    assert Square(x - m) == x * x - 2.0 * (x * m) + m * m;
    assert x * (m + s) == x * m + x * s;
    assert (1.0 + k) * Square(x) == Square(x) + k * Square(x);
  }

  lemma VarianceZero()
    ensures Variance(0.0, 0.0, 0.0) == 0.0
  {
  }

  lemma VarianceStep(x: real, k: real, s: real, q: real)
    ensures Parabola(k, s, q, x) + Variance(k, s, q) == Variance(1.0 + k, x + s, Square(x) + q)
  {
    var y := Square(x) + q;
    assert (1.0 + k) * y == y + k * y;
    assert k * y == k * Square(x) + k * q;
    assert Square(x + s) == Square(x) + 2.0 * (x * s) + Square(s);
  }

  lemma Completion(k: real, m: real, s: real, q: real)
    ensures k * Parabola(k, s, q, m) == Variance(k, s, q) + Square(s - k * m)
  {
    var t := k * m;
    assert k * Square(m) == t * m;
    assert k * (t * m) == t * t;
    assert k * (2.0 * (m * s)) == 2.0 * (t * s);
    Distribute(k, t * m, 2.0 * (m * s), q);
    assert Square(s - t) == s * s - 2.0 * (t * s) + t * t;
  }

  lemma Distribute(k: real, a: real, b: real, c: real)
    ensures k * (a - b + c) == k * a - k * b + k * c
  {
  }

  function Towards(x: real, u: seq<real>, all: seq<real>): (t: real)
    ensures t >= 0.0
  {
    if u == [] then 0.0 else Square(x - Mid(all, u[0])) + Towards(x, u[1..], all)
  }

  /** Sum of squared position differences over the unordered pairs of ratings. */
  function Spread(u: seq<real>, all: seq<real>): (s: real)
    ensures s >= 0.0
  {
    if u == [] then 0.0 else Towards(Mid(all, u[0]), u[1..], all) + Spread(u[1..], all)
  }

  lemma {:induction false} MomentZero(u: seq<real>, all: seq<real>)
    ensures Moment(u, all, 0) == |u| as real
  {
    if u != [] { MomentZero(u[1..], all); }
  }

  lemma {:induction false} TowardsClosed(x: real, u: seq<real>, all: seq<real>)
    ensures Towards(x, u, all) == Parabola(Moment(u, all, 0), Moment(u, all, 1), Moment(u, all, 2), x)
  {
    hide Square;
    if u == [] {
      assert 0.0 * Square(x) == 0.0 && x * 0.0 == 0.0;
    } else {
      hide Parabola;
      TowardsClosed(x, u[1..], all);
      ParabolaStep(Mid(all, u[0]), Moment(u[1..], all, 0), Moment(u[1..], all, 1), Moment(u[1..], all, 2), x);
    }
  }

  /** A pair sum is a variance. */
  lemma {:induction false} SpreadClosed(u: seq<real>, all: seq<real>)
    ensures Spread(u, all) == Variance(Moment(u, all, 0), Moment(u, all, 1), Moment(u, all, 2))
  {
    hide Square, Parabola, Variance;
    if u == [] {
      VarianceZero();
    } else {
      SpreadClosed(u[1..], all);
      TowardsClosed(Mid(all, u[0]), u[1..], all);
      VarianceStep(Mid(all, u[0]), Moment(u[1..], all, 0), Moment(u[1..], all, 1), Moment(u[1..], all, 2));
    }
  }

  // ----- alpha -----

  function Flat(units: seq<seq<real>>): seq<real> {
    if units == [] then [] else units[0] + Flat(units[1..])
  }

  /** Every unit has been rated at least twice. */
  predicate Pairable(units: seq<seq<real>>) {
    forall i | 0 <= i < |units| :: |units[i]| >= 2
  }

  function Within(units: seq<seq<real>>, all: seq<real>): (w: real)
    requires Pairable(units)
    ensures w >= 0.0
  {
    if units == [] then 0.0
    else Spread(units[0], all) / (|units[0]| as real - 1.0) + Within(units[1..], all)
  }

  predicate IsConstant(all: seq<real>) {
    forall i, j | 0 <= i < |all| && 0 <= j < |all| :: all[i] == all[j]
  }

  lemma Quotient(a: real, b: real)
    requires a >= 0.0 && b > 0.0
    ensures a / b >= 0.0 && (a / b == 0.0 <==> a == 0.0) && (a / b) * b == a
  {
  }

  /** Observed over expected disagreement. */
  function Ratio(w: real, s: real, n: real): real
    requires s > 0.0 && n > 1.0
  {
    var pairs := n * (n - 1.0);
    assert pairs > 0.0 && s / pairs > 0.0 by { Quotient(s, n * (n - 1.0)); }
    (w / n) / (s / pairs)
  }

  function Alpha(units: seq<seq<real>>): real
    requires Pairable(units)
  {
    var all := Flat(units);
    var n := |all| as real;
    if Spread(all, all) == 0.0 then 1.0 else 1.0 - Ratio(Within(units, all), Spread(all, all), n)
  }

  predicate AllAre(u: seq<real>, v: real) {
    forall i | 0 <= i < |u| :: u[i] == v
  }

  lemma AllAreTail(u: seq<real>, v: real)
    requires u != []
    ensures AllAre(u, v) <==> u[0] == v && AllAre(u[1..], v)
  {
    if u[0] == v && AllAre(u[1..], v) {
      forall i | 0 <= i < |u| ensures u[i] == v { if i > 0 { assert u[1..][i - 1] == v; } }
    }
  }

  lemma {:induction false} TowardsZero(u: seq<real>, all: seq<real>, v: real)
    requires v in all && forall r | r in u :: r in all
    ensures Towards(Mid(all, v), u, all) == 0.0 <==> AllAre(u, v)
  {
    hide Square;
    if u != [] {
      TowardsZero(u[1..], all, v);
      PositionsDiffer(all, v, u[0]);
      SquareZero(Mid(all, v) - Mid(all, u[0]));
      AllAreTail(u, v);
    }
  }

  lemma ConstantHead(u: seq<real>)
    requires u != []
    ensures IsConstant(u) <==> AllAre(u[1..], u[0])
  {
    AllAreTail(u, u[0]);
    if AllAre(u[1..], u[0]) { assert forall i | 0 <= i < |u| :: u[i] == u[0]; }
  }

  /** A unit has no spread exactly when its ratings are all the same. */
  lemma {:induction false} SpreadZero(u: seq<real>, all: seq<real>)
    requires forall r | r in u :: r in all
    ensures Spread(u, all) == 0.0 <==> IsConstant(u)
  {
    if u != [] {
      SpreadZero(u[1..], all);
      TowardsZero(u[1..], all, u[0]);
      ConstantHead(u);
      if IsConstant(u) { assert forall i | 0 <= i < |u| - 1 :: u[1..][i] == u[i + 1]; }
    }
  }

  lemma {:induction false} FlatHolds(units: seq<seq<real>>, i: nat)
    requires i < |units|
    ensures forall r | r in units[i] :: r in Flat(units)
  {
    if i > 0 { FlatHolds(units[1..], i - 1); }
  }

  lemma {:induction false} FlatSize(units: seq<seq<real>>)
    requires Pairable(units)
    ensures |Flat(units)| >= 2 * |units|
  {
    if units != [] { FlatSize(units[1..]); }
  }

  predicate IsUnanimous(units: seq<seq<real>>) {
    forall i | 0 <= i < |units| :: IsConstant(units[i])
  }

  lemma {:induction false} WithinZero(units: seq<seq<real>>, all: seq<real>)
    requires Pairable(units) && forall i | 0 <= i < |units| :: forall r | r in units[i] :: r in all
    ensures Within(units, all) == 0.0 <==> IsUnanimous(units)
  {
    if units != [] {
      assert forall i | 0 <= i < |units| - 1 :: units[1..][i] == units[i + 1];
      WithinZero(units[1..], all);
      SpreadZero(units[0], all);
      var d := |units[0]| as real - 1.0;
      assert Spread(units[0], all) / d == 0.0 <==> Spread(units[0], all) == 0.0 by {
        Quotient(Spread(units[0], all), d);
      }
      assert IsUnanimous(units) <==> IsConstant(units[0]) && IsUnanimous(units[1..]) by {
        assert IsUnanimous(units) ==> IsUnanimous(units[1..]);
        assert IsConstant(units[0]) && IsUnanimous(units[1..]) ==>
            forall i | 0 < i < |units| :: units[i] == units[1..][i - 1];
      }
    }
  }

  /** With two different ratings the expected disagreement and both its denominators are positive. */
  lemma ExpectedIsPositive(units: seq<seq<real>>)
    requires Pairable(units) && units != [] && !IsConstant(Flat(units))
    ensures var all := Flat(units); var n := |all| as real;
            n >= 2.0 && n * (n - 1.0) > 0.0 && Spread(all, all) > 0.0 && Spread(all, all) / (n * (n - 1.0)) > 0.0
  {
    hide Square;
    SpreadZero(Flat(units), Flat(units));
    FlatSize(units);
    PositivePairs(Spread(Flat(units), Flat(units)), |Flat(units)| as real);
  }

  lemma PositivePairs(s: real, n: real)
    requires s > 0.0 && n >= 2.0
    ensures n * (n - 1.0) > 0.0 && s / (n * (n - 1.0)) > 0.0
  {
    Positive(n, n - 1.0);
    Quotient(s, n * (n - 1.0));
  }

  lemma AlphaForm(w: real, s: real, n: real)
    requires s > 0.0 && n > 1.0
    ensures Ratio(w, s, n) == w * (n - 1.0) / s
  {
    var d := n * (n - 1.0);
    Quotient(s, d);
    var x, e := w / n, s / d;
    assert x * n == w;
    assert e * d == s;
    var y := x / e;
    assert y * e == x;
    assert y * s == y * (e * d) == (y * e) * d == x * d == (x * n) * (n - 1.0) == w * (n - 1.0);
    Cancel(y, s, w * (n - 1.0));
  }

  lemma Cancel(y: real, s: real, t: real)
    requires s != 0.0 && y * s == t
    ensures y == t / s
  {
  }

  lemma ConstantPart(u: seq<real>, all: seq<real>)
    requires IsConstant(all) && forall r | r in u :: r in all
    ensures IsConstant(u)
  {
    forall i, j | 0 <= i < |u| && 0 <= j < |u| ensures u[i] == u[j] { assert u[i] in u && u[j] in u; }
  }

  lemma RatioZero(w: real, s: real, n: real)
    requires w >= 0.0 && s > 0.0 && n > 1.0
    ensures Ratio(w, s, n) == 0.0 <==> w == 0.0
  {
    AlphaForm(w, s, n);
    var x := w * (n - 1.0);
    assert x == 0.0 <==> w == 0.0;
    Quotient(x, s);
  }

  /** Alpha is one exactly when the raters agree on every unit. */
  lemma AlphaIsOneIffUnanimous(units: seq<seq<real>>)
    requires Pairable(units) && units != []
    ensures Alpha(units) == 1.0 <==> IsUnanimous(units)
  {
    var all := Flat(units);
    forall i | 0 <= i < |units| ensures forall r | r in units[i] :: r in all { FlatHolds(units, i); }
    FlatSize(units);
    SpreadZero(all, all);
    hide Ratio, Square;
    if IsConstant(all) {
      forall i | 0 <= i < |units| ensures IsConstant(units[i]) { ConstantPart(units[i], all); }
    } else {
      WithinZero(units, all);
      RatioZero(Within(units, all), Spread(all, all), |all| as real);
    }
  }

  // ----- the range -----

  /** Squared distance of the ratings' positions from a common point. */
  function Deviation(u: seq<real>, all: seq<real>, mean: real): (d: real)
    ensures d >= 0.0
  {
    Towards(mean, u, all)
  }

  lemma {:induction false} DeviationConcat(a: seq<real>, b: seq<real>, all: seq<real>, mean: real)
    ensures Deviation(a + b, all, mean) == Deviation(a, all, mean) + Deviation(b, all, mean)
  {
    if a == [] {
      assert a + b == b;
    } else {
      assert (a + b)[1..] == a[1..] + b;
      DeviationConcat(a[1..], b, all, mean);
    }
  }

  /** Spread is at most the size times the deviation from any point, and equals it at the mean. */
  lemma SpreadDeviation(u: seq<real>, all: seq<real>, mean: real)
    ensures |u| as real * Deviation(u, all, mean) == Spread(u, all) + Square(Moment(u, all, 1) - |u| as real * mean)
  {
    hide Square, Parabola, Variance;
    SpreadClosed(u, all);
    TowardsClosed(mean, u, all);
    MomentZero(u, all);
    Completion(|u| as real, mean, Moment(u, all, 1), Moment(u, all, 2));
  }

  /** A unit of at least two ratings contributes at most twice its deviation. */
  lemma UnitBound(u: seq<real>, all: seq<real>, mean: real)
    requires |u| >= 2
    ensures Spread(u, all) / (|u| as real - 1.0) <= 2.0 * Deviation(u, all, mean)
  {
    SpreadDeviation(u, all, mean);
    PairBound(Spread(u, all), |u| as real, Deviation(u, all, mean));
  }

  lemma PairBound(s: real, k: real, d: real)
    requires s <= k * d && k >= 2.0 && d >= 0.0
    ensures s / (k - 1.0) <= 2.0 * d
  {
    assert (k - 1.0) * (2.0 * d) == k * d + (k - 2.0) * d;
    assert (k - 2.0) * d >= 0.0;
    Bounded(s, k - 1.0, 2.0 * d);
  }

  lemma Bounded(s: real, c: real, b: real)
    requires c > 0.0 && s <= c * b
    ensures s / c <= b
  {
    assert (s / c) * c == s;
  }

  lemma {:induction false} WithinBound(units: seq<seq<real>>, all: seq<real>, mean: real)
    requires Pairable(units)
    ensures Within(units, all) <= 2.0 * Deviation(Flat(units), all, mean)
  {
    if units != [] {
      UnitBound(units[0], all, mean);
      DeviationConcat(units[0], Flat(units[1..]), all, mean);
      WithinBound(units[1..], all, mean);
    }
  }

  /** Alpha lies between -1 + 2/n and 1, n being the number of pairable ratings, whatever the number
      of raters and the pattern of missing scores; a clamp to [-1, 1] changes nothing. */
  lemma AlphaInRange(units: seq<seq<real>>)
    requires Pairable(units) && units != []
    ensures -1.0 <= -1.0 + 2.0 / |Flat(units)| as real <= Alpha(units) <= 1.0
  {
    hide Ratio, Square;
    FlatSize(units);
    var all := Flat(units);
    var n, w, s := |all| as real, Within(units, all), Spread(all, all);
    TwoOver(n);
    if s != 0.0 {
      var mean := AtTheMean(all);
      WithinBound(units, all, mean);
      RatioBounds(w, s, Deviation(all, all, mean), n);
    }
  }

  lemma TwoOver(n: real)
    requires n >= 2.0
    ensures 0.0 <= 2.0 / n <= 1.0
  {
    Bounded(2.0, n, 1.0);
    Quotient(2.0, n);
  }

  lemma AtTheMean(all: seq<real>) returns (mean: real)
    requires all != []
    ensures Spread(all, all) == |all| as real * Deviation(all, all, mean)
  {
    hide Square;
    mean := Moment(all, all, 1) / |all| as real;
    Quotiented(Moment(all, all, 1), |all| as real);
    SpreadDeviation(all, all, mean);
    SquareZero(Moment(all, all, 1) - |all| as real * mean);
  }

  lemma Quotiented(s: real, n: real)
    requires n > 0.0
    ensures n * (s / n) == s
  {
  }

  lemma RatioBounds(w: real, s: real, d: real, n: real)
    requires 0.0 <= w <= 2.0 * d && s == n * d && s > 0.0 && n >= 2.0
    ensures 0.0 <= Ratio(w, s, n) <= 2.0 - 2.0 / n
  {
    AlphaForm(w, s, n);
    var x := w * (n - 1.0);
    assert 0.0 <= x <= (2.0 * d) * (n - 1.0);
    Quotient(x, s);
    var b := 2.0 - 2.0 / n;
    assert b * n == 2.0 * n - 2.0;
    assert s * b == d * (b * n);
    assert d * (2.0 * n - 2.0) == (2.0 * d) * (n - 1.0);
    Bounded(x, s, b);
  }
}
