/** When the lower end of alpha's range is met: the average mid-rank is half the number of ratings, and
    alpha is least when every unit is balanced around it. */
module AlphaBounds {
  import opened MidRanks

  // ----- the average mid-rank -----

  lemma {:induction false} OneAgainstAll(all: seq<real>, v: real)
    ensures Moment(all, [v], 1) + Mid(all, v) == |all| as real
  {
    if all != [] {
      OneAgainstAll(all[1..], v);
      assert Mid([v], all[0]) == Place(v, all[0]) by { assert [v][1..] == []; }
    }
  }

  lemma {:induction false} MomentSplits(all: seq<real>, v: real, rest: seq<real>)
    ensures Moment(all, [v] + rest, 1) == Moment(all, [v], 1) + Moment(all, rest, 1)
  {
    if all != [] {
      MomentSplits(all[1..], v, rest);
      MidConcat([v], rest, all[0]);
    }
  }

  lemma {:induction false} NothingBelow(all: seq<real>)
    ensures Moment(all, [], 1) == 0.0
  {
    if all != [] { NothingBelow(all[1..]); }
  }

  /** Of two ratings one is below the other, or each counts half for the other. */
  lemma {:induction false} PositionsPair(u: seq<real>, all: seq<real>)
    ensures Moment(u, all, 1) + Moment(all, u, 1) == Times(|u| as real, |all| as real)
  {
    if u == [] {
      NothingBelow(all);
    } else {
      PositionsPair(u[1..], all);
      OneAgainstAll(all, u[0]);
      assert u == [u[0]] + u[1..];
      MomentSplits(all, u[0], u[1..]);
    }
  }

  lemma AverageIsHalf(all: seq<real>)
    requires all != []
    ensures Moment(all, all, 1) == |all| as real * (|all| as real / 2.0)
  {
    PositionsPair(all, all);
  }

  // ----- one unit -----

  /** The unit's ratings stand, on average, in the middle of all ratings. */
  predicate IsBalanced(u: seq<real>, all: seq<real>) {
    Moment(u, all, 1) == |u| as real * (|all| as real / 2.0)
  }

  /** The unit has just two ratings, or all its ratings agree. */
  predicate IsExtreme(u: seq<real>, all: seq<real>) { IsBalanced(u, all) && (|u| == 2 || IsConstant(u)) }

  lemma BoundMet(s: real, k: real, d: real, q: real)
    requires k >= 2.0 && s >= 0.0 && q >= 0.0 && k * d == s + q
    ensures s / (k - 1.0) == 2.0 * d <==> q == 0.0 && (k == 2.0 || s == 0.0)
  {
    var x := s / (k - 1.0);
    assert x * (k - 1.0) == s;
    assert 2.0 * (k * d) == k * (2.0 * d);
    if x == 2.0 * d {
      assert k * x == s + x;
      assert s + 2.0 * q == x;
      assert (k - 2.0) * x == s - x;
      assert x >= 0.0;
      assert s == x && q == 0.0;
      assert (k - 2.0) * s == 0.0;
    }
    if q == 0.0 && (k == 2.0 || s == 0.0) {
      if s == 0.0 { assert x * (k - 1.0) == 0.0; assert k * d == 0.0; }
    }
  }

  lemma UnitMeets(u: seq<real>, all: seq<real>)
    requires |u| >= 2 && forall r | r in u :: r in all
    ensures Spread(u, all) / (|u| as real - 1.0) == 2.0 * Deviation(u, all, |all| as real / 2.0) <==> IsExtreme(u, all)
  {
    hide Square, Spread, Deviation, Moment;
    var k, mean := |u| as real, |all| as real / 2.0;
    SpreadDeviation(u, all, mean);
    SquareZero(Moment(u, all, 1) - k * mean);
    SpreadZero(u, all);
    BoundMet(Spread(u, all), k, Deviation(u, all, mean), Square(Moment(u, all, 1) - k * mean));
  }

  // ----- all units -----

  predicate AllExtreme(units: seq<seq<real>>, all: seq<real>) {
    forall i | 0 <= i < |units| :: IsExtreme(units[i], all)
  }

  lemma AllExtremeSplits(units: seq<seq<real>>, all: seq<real>)
    requires units != []
    ensures AllExtreme(units, all) <==> IsExtreme(units[0], all) && AllExtreme(units[1..], all)
  {
    hide IsExtreme;
    if IsExtreme(units[0], all) && AllExtreme(units[1..], all) {
      forall i | 0 <= i < |units| ensures IsExtreme(units[i], all) {
        if i > 0 { assert units[i] == units[1..][i - 1]; }
      }
    }
    if AllExtreme(units, all) { assert forall i | 0 <= i < |units| - 1 :: units[1..][i] == units[i + 1]; }
  }

  lemma {:induction false} WithinMeets(units: seq<seq<real>>, all: seq<real>)
    requires Pairable(units) && forall i | 0 <= i < |units| :: forall r | r in units[i] :: r in all
    ensures Within(units, all) == 2.0 * Deviation(Flat(units), all, |all| as real / 2.0) <==> AllExtreme(units, all)
  {
    hide IsExtreme, Spread, Deviation;
    var mean := |all| as real / 2.0;
    if units == [] {
      assert Deviation(Flat(units), all, mean) == 0.0 by { NoDeviation(Flat(units), all, mean); }
    } else {
      assert forall i | 0 <= i < |units| - 1 :: units[1..][i] == units[i + 1];
      WithinMeets(units[1..], all);
      UnitMeets(units[0], all);
      UnitBound(units[0], all, mean);
      WithinBound(units[1..], all, mean);
      DeviationConcat(units[0], Flat(units[1..]), all, mean);
      AllExtremeSplits(units, all);
    }
  }

  lemma NoDeviation(u: seq<real>, all: seq<real>, mean: real)
    requires |u| == 0
    ensures Deviation(u, all, mean) == 0.0
  {
  }

  lemma RatioMeets(w: real, s: real, d: real, n: real)
    requires 0.0 <= w <= 2.0 * d && s == n * d && s > 0.0 && n >= 2.0
    ensures Ratio(w, s, n) == 2.0 - 2.0 / n <==> w == 2.0 * d
  {
    AlphaForm(w, s, n);
    var b := 2.0 - 2.0 / n;
    assert b * n == 2.0 * n - 2.0;
    assert s * b == d * (b * n);
    assert d * (2.0 * n - 2.0) == (2.0 * d) * (n - 1.0);
    var y := w * (n - 1.0) / s;
    assert y * s == w * (n - 1.0);
    if y == b { Cancelled(w, 2.0 * d, n - 1.0); }
    if w == 2.0 * d { Cancel(b, s, w * (n - 1.0)); }
  }

  lemma Cancelled(a: real, b: real, c: real)
    requires c > 0.0 && a * c == b * c
    ensures a == b
  {
    assert (a - b) * c == 0.0;
  }

  lemma BalancedSpread(all: seq<real>)
    requires all != []
    ensures Spread(all, all) == |all| as real * Deviation(all, all, |all| as real / 2.0)
  {
    hide Square, Spread, Deviation, Moment;
    AverageIsHalf(all);
    SpreadDeviation(all, all, |all| as real / 2.0);
    SquareZero(Moment(all, all, 1) - |all| as real * (|all| as real / 2.0));
  }

  lemma AlphaIsRatio(units: seq<seq<real>>)
    requires Pairable(units) && Spread(Flat(units), Flat(units)) > 0.0 && |Flat(units)| >= 2
    ensures Alpha(units) == 1.0 - Ratio(Within(units, Flat(units)), Spread(Flat(units), Flat(units)),
                                        |Flat(units)| as real)
  {
    hide Ratio, Within, Spread, Flat;
  }

  /** Unless all scores are equal, alpha is as low as it can be exactly if every unit stands in the middle
      on average and has two ratings, or several that agree. */
  lemma LowestAlpha(units: seq<seq<real>>)
    requires Pairable(units) && units != [] && !IsConstant(Flat(units))
    ensures Alpha(units) == -1.0 + 2.0 / |Flat(units)| as real <==>
            forall i | 0 <= i < |units| :: IsExtreme(units[i], Flat(units))
  {
    hide *;
    var all := Flat(units);
    var n, w, s := |all| as real, Within(units, all), Spread(all, all);
    ExpectedIsPositive(units);
    AlphaIsRatio(units);
    forall i | 0 <= i < |units| ensures forall r | r in units[i] :: r in all { FlatHolds(units, i); }
    BalancedSpread(all);
    WithinBound(units, all, n / 2.0);
    WithinMeets(units, all);
    ExtremeUnits(units, all);
    RatioMeets(w, s, Deviation(all, all, n / 2.0), n);
  }

  lemma ExtremeUnits(units: seq<seq<real>>, all: seq<real>)
    ensures AllExtreme(units, all) <==> forall i | 0 <= i < |units| :: IsExtreme(units[i], all)
  {
    hide IsExtreme;
  }

  // ----- equal units -----

  predicate AreCopies(units: seq<seq<real>>, u: seq<real>) {
    forall i | 0 <= i < |units| :: units[i] == u
  }

  lemma {:induction false} MomentConcat(a: seq<real>, b: seq<real>, all: seq<real>, p: nat)
    ensures Moment(a + b, all, p) == Moment(a, all, p) + Moment(b, all, p)
  {
    if a == [] {
      assert a + b == b;
    } else {
      assert (a + b)[1..] == a[1..] + b;
      MomentConcat(a[1..], b, all, p);
    }
  }

  lemma CopiesTail(units: seq<seq<real>>, u: seq<real>)
    requires AreCopies(units, u) && units != []
    ensures units[0] == u && AreCopies(units[1..], u)
  {
  }

  lemma MoreTimes(m: real, x: real)
    ensures Times(m + 1.0, x) == Times(m, x) + x && Times(0.0, x) == 0.0
  {
  }

  lemma {:induction false} CopiedMoment(units: seq<seq<real>>, u: seq<real>, all: seq<real>, p: nat)
    requires AreCopies(units, u)
    ensures Moment(Flat(units), all, p) == Times(|units| as real, Moment(u, all, p))
  {
    hide Times, AreCopies, Moment;
    MoreTimes(|units| as real - 1.0, Moment(u, all, p));
    if units == [] {
      MoreTimes(0.0, Moment(u, all, p));
      NoMoment(all, p);
    } else {
      CopiesTail(units, u);
      CopiedMoment(units[1..], u, all, p);
      MomentConcat(u, Flat(units[1..]), all, p);
    }
  }

  lemma NoMoment(all: seq<real>, p: nat)
    ensures Moment([], all, p) == 0.0
  {
  }

  lemma {:induction false} CopiedWithin(units: seq<seq<real>>, u: seq<real>, all: seq<real>)
    requires AreCopies(units, u) && Pairable(units) && |u| >= 2
    ensures Within(units, all) == Times(|units| as real, Spread(u, all) / (|u| as real - 1.0))
  {
    hide Times, AreCopies, Spread;
    MoreTimes(|units| as real - 1.0, Spread(u, all) / (|u| as real - 1.0));
    if units == [] {
      MoreTimes(0.0, Spread(u, all) / (|u| as real - 1.0));
    } else {
      CopiesTail(units, u);
      CopiedWithin(units[1..], u, all);
    }
  }

  lemma {:induction false} CopiedSize(units: seq<seq<real>>, u: seq<real>)
    requires AreCopies(units, u)
    ensures |Flat(units)| as real == Times(|units| as real, |u| as real)
  {
    hide Times, AreCopies;
    MoreTimes(|units| as real - 1.0, |u| as real);
    if units == [] {
      MoreTimes(0.0, |u| as real);
    } else {
      CopiesTail(units, u);
      CopiedSize(units[1..], u);
    }
  }

  lemma ScaledVariance(m: real, k: real, s: real, q: real)
    ensures Variance(Times(m, k), Times(m, s), Times(m, q)) == Times(m, Times(m, Variance(k, s, q)))
  {
    assert (m * k) * (m * q) == m * (m * (k * q));
    assert (m * s) * (m * s) == m * (m * (s * s));
    assert m * (m * (k * q - s * s)) == m * (m * (k * q)) - m * (m * (s * s));
  }

  lemma CopiedSpread(units: seq<seq<real>>, u: seq<real>, all: seq<real>)
    requires AreCopies(units, u)
    ensures Spread(Flat(units), all) == Times(|units| as real, Times(|units| as real, Spread(u, all)))
  {
    hide *;
    SpreadClosed(Flat(units), all);
    SpreadClosed(u, all);
    CopiedMoment(units, u, all, 0);
    CopiedMoment(units, u, all, 1);
    CopiedMoment(units, u, all, 2);
    ScaledVariance(|units| as real, Moment(u, all, 0), Moment(u, all, 1), Moment(u, all, 2));
  }

  lemma CopiedForm(m: real, k: real, x: real, w: real, n: real, t: real, d: real)
    requires m >= 1.0 && k >= 2.0 && x > 0.0 && d > 0.0 && t > 0.0
    requires w == Times(m, x / (k - 1.0)) && t == Times(m, Times(m, x)) && d == Times(m, k - 1.0)
    ensures w * (n - 1.0) / t == (n - 1.0) / d
  {
    var y, z := x / (k - 1.0), (n - 1.0) / d;
    assert y * (k - 1.0) == x;
    assert z * d == n - 1.0;
    assert d * y == m * x;
    assert z * t == z * (m * (m * x)) == m * (z * (d * y)) == m * ((z * d) * y) == w * (n - 1.0);
    Cancel(z, t, w * (n - 1.0));
  }

  lemma CopiedExcess(m: real, k: real, n: real, d: real)
    requires d > 0.0 && n == Times(m, k) && d == Times(m, k - 1.0)
    ensures (n - 1.0) / d == 1.0 + (m - 1.0) / d
  {
    var e := (m - 1.0) / d;
    assert e * d == m - 1.0;
    assert (1.0 + e) * d == n - 1.0;
    Cancel(1.0 + e, d, n - 1.0);
  }

  lemma CopiedRatio(m: real, k: real, x: real)
    requires m >= 1.0 && k >= 2.0 && x > 0.0 && Times(m, Times(m, x)) > 0.0 && Times(m, k) > 1.0
    ensures Ratio(Times(m, x / (k - 1.0)), Times(m, Times(m, x)), Times(m, k)) ==
            1.0 + (m - 1.0) / Times(m, k - 1.0)
  {
    hide Ratio, Times;
    var w, n, t, d := Times(m, x / (k - 1.0)), Times(m, k), Times(m, Times(m, x)), Times(m, k - 1.0);
    Positive(m, k - 1.0);
    AlphaForm(w, t, n);
    CopiedForm(m, k, x, w, n, t, d);
    CopiedExcess(m, k, n, d);
  }

  /** The raters score every item alike whatever the item: with `m` copies of one unit of `k` different
      ratings alpha is -(m - 1) / (m(k - 1)), and so zero for a single unit of any size. */
  lemma CopiedUnitsAlpha(units: seq<seq<real>>, u: seq<real>)
    requires AreCopies(units, u) && units != [] && |u| >= 2 && !IsConstant(u)
    ensures Pairable(units)
    ensures Alpha(units) == -((|units| as real - 1.0) / Times(|units| as real, |u| as real - 1.0))
    ensures |units| == 1 ==> Alpha(units) == 0.0
  {
    hide Alpha, Spread, IsConstant, Within, Ratio, Times, Flat;
    var m, k, all := |units| as real, |u| as real, Flat(units);
    assert units[0] == u;
    FlatHolds(units, 0);
    SpreadZero(u, all);
    SpreadPositive(m, Spread(u, all));
    CopiedSpread(units, u, all);
    FlatSize(units);
    CopiedSize(units, u);
    CopiedWithin(units, u, all);
    AlphaIsRatio(units);
    CopiedRatio(m, k, Spread(u, all));
    ZeroOver(Times(1.0, k - 1.0), k - 1.0);
  }

  lemma ZeroOver(d: real, c: real)
    requires d == Times(1.0, c) && c > 0.0
    ensures 0.0 / d == 0.0
  {
  }

  lemma SpreadPositive(m: real, x: real)
    requires m > 0.0 && x > 0.0
    ensures Times(m, Times(m, x)) > 0.0
  {
    Positive(m, x);
    Positive(m, Times(m, x));
  }
}
