/** What alpha does not depend on: the order of raters and units, the labels of the scale, and units
    that only one rater scored. */
module AlphaLaws {
  import opened MidRanks
  import opened Permutations

  lemma {:induction false} MidPermuted(s: seq<real>, t: seq<real>, v: real)
    requires multiset(s) == multiset(t)
    ensures Mid(s, v) == Mid(t, v)
  {
    SameSize(s, t);
    if s != [] {
      var a, b := TakeOut(s, t);
      MidPermuted(s[1..], a + b, v);
      MidConcat(a, b, v);
      MidConcat(a, [s[0]], v);
      MidConcat(a + [s[0]], b, v);
      assert [s[0]][1..] == [];
    }
  }

  lemma {:induction false} MomentConcat(a: seq<real>, b: seq<real>, all: seq<real>, p: nat)
    ensures Moment(a + b, all, p) == Moment(a, all, p) + Moment(b, all, p)
  {
    if a == [] {
      assert a + b == b;
    } else {
      assert (a + b)[1..] == a[1..] + b;
      MomentConcat(a[1..], b, all, p);
    }
  }

  lemma {:induction false} MomentPermuted(s: seq<real>, t: seq<real>, all: seq<real>, p: nat)
    requires multiset(s) == multiset(t)
    ensures Moment(s, all, p) == Moment(t, all, p)
  {
    hide Power;
    SameSize(s, t);
    if s != [] {
      var a, b := TakeOut(s, t);
      MomentPermuted(s[1..], a + b, all, p);
      MomentConcat(a, b, all, p);
      MomentConcat(a, [s[0]], all, p);
      MomentConcat(a + [s[0]], b, all, p);
      assert [s[0]][1..] == [];
    }
  }

  // ----- order -----

  /** Positions among `all` and among `other` agree, rating by rating. */
  predicate SamePlaces(u: seq<real>, w: seq<real>, all: seq<real>, other: seq<real>) {
    |u| == |w| && forall i | 0 <= i < |u| :: Mid(all, u[i]) == Mid(other, w[i])
  }

  lemma {:induction false} TowardsSame(x: real, u: seq<real>, w: seq<real>, all: seq<real>, other: seq<real>)
    requires SamePlaces(u, w, all, other)
    ensures Towards(x, u, all) == Towards(x, w, other)
  {
    if u != [] { TowardsSame(x, u[1..], w[1..], all, other); }
  }

  lemma {:induction false} SpreadSame(u: seq<real>, w: seq<real>, all: seq<real>, other: seq<real>)
    requires SamePlaces(u, w, all, other)
    ensures Spread(u, all) == Spread(w, other)
  {
    if u != [] {
      SpreadSame(u[1..], w[1..], all, other);
      TowardsSame(Mid(all, u[0]), u[1..], w[1..], all, other);
    }
  }

  lemma SpreadPermuted(u: seq<real>, w: seq<real>, all: seq<real>)
    requires multiset(u) == multiset(w)
    ensures Spread(u, all) == Spread(w, all)
  {
    hide Variance;
    SpreadClosed(u, all);
    SpreadClosed(w, all);
    MomentPermuted(u, w, all, 0);
    MomentPermuted(u, w, all, 1);
    MomentPermuted(u, w, all, 2);
  }

  /** The ratings of each unit in another order: the raters permuted. */
  predicate SameRatings(units: seq<seq<real>>, other: seq<seq<real>>) {
    |units| == |other| && forall i | 0 <= i < |units| :: multiset(units[i]) == multiset(other[i])
  }

  lemma SameRatingsTail(units: seq<seq<real>>, other: seq<seq<real>>)
    requires SameRatings(units, other) && units != []
    ensures SameRatings(units[1..], other[1..]) && multiset(units[0]) == multiset(other[0]) && |units[0]| == |other[0]|
  {
    SameSize(units[0], other[0]);
    forall i | 0 <= i < |units| - 1 ensures multiset(units[1..][i]) == multiset(other[1..][i]) {
      assert multiset(units[i + 1]) == multiset(other[i + 1]);
    }
  }

  lemma {:induction false} FlatSameRatings(units: seq<seq<real>>, other: seq<seq<real>>)
    requires SameRatings(units, other)
    ensures multiset(Flat(units)) == multiset(Flat(other))
  {
    if units != [] {
      SameRatingsTail(units, other);
      FlatSameRatings(units[1..], other[1..]);
    }
  }

  lemma {:induction false} WithinSameRatings(units: seq<seq<real>>, other: seq<seq<real>>, all: seq<real>)
    requires Pairable(units) && Pairable(other) && SameRatings(units, other)
    ensures Within(units, all) == Within(other, all)
  {
    if units != [] {
      SameRatingsTail(units, other);
      SpreadPermuted(units[0], other[0], all);
      WithinSameRatings(units[1..], other[1..], all);
    }
  }

  /** Alpha sees the pooled ratings only through the positions they give. */
  lemma {:induction false} WithinOtherPool(units: seq<seq<real>>, all: seq<real>, other: seq<real>)
    requires Pairable(units) && multiset(all) == multiset(other)
    ensures Within(units, all) == Within(units, other)
  {
    if units != [] {
      SpreadOtherPool(units[0], all, other);
      WithinOtherPool(units[1..], all, other);
    }
  }

  lemma SpreadOtherPool(u: seq<real>, all: seq<real>, other: seq<real>)
    requires multiset(all) == multiset(other)
    ensures Spread(u, all) == Spread(u, other)
  {
    forall i | 0 <= i < |u| ensures Mid(all, u[i]) == Mid(other, u[i]) { MidPermuted(all, other, u[i]); }
    SpreadSame(u, u, all, other);
  }

  lemma SamePool(units: seq<seq<real>>, other: seq<seq<real>>)
    requires Pairable(units) && Pairable(other)
    requires multiset(Flat(units)) == multiset(Flat(other)) && Within(units, Flat(units)) == Within(other, Flat(units))
    ensures Alpha(units) == Alpha(other)
  {
    hide Ratio;
    var all, pool := Flat(units), Flat(other);
    SameSize(all, pool);
    WithinOtherPool(other, all, pool);
    SpreadPermuted(all, pool, all);
    SpreadOtherPool(pool, all, pool);
  }

  /** Permuting the raters changes nothing. */
  lemma RaterOrderIsIrrelevant(units: seq<seq<real>>, other: seq<seq<real>>)
    requires Pairable(units) && Pairable(other) && SameRatings(units, other)
    ensures Alpha(units) == Alpha(other)
  {
    FlatSameRatings(units, other);
    WithinSameRatings(units, other, Flat(units));
    SamePool(units, other);
  }

  lemma {:induction false} FlatConcat(a: seq<seq<real>>, b: seq<seq<real>>)
    ensures Flat(a + b) == Flat(a) + Flat(b)
  {
    if a == [] {
      assert a + b == b;
    } else {
      assert (a + b)[1..] == a[1..] + b;
      FlatConcat(a[1..], b);
    }
  }

  lemma {:induction false} WithinConcat(a: seq<seq<real>>, b: seq<seq<real>>, all: seq<real>)
    requires Pairable(a) && Pairable(b)
    ensures Pairable(a + b) && Within(a + b, all) == Within(a, all) + Within(b, all)
  {
    if a == [] {
      assert a + b == b;
    } else {
      assert (a + b)[1..] == a[1..] + b;
      WithinConcat(a[1..], b, all);
    }
  }

  lemma PairableParts(a: seq<seq<real>>, u: seq<real>, b: seq<seq<real>>)
    requires Pairable(a + [u] + b)
    ensures Pairable(a) && |u| >= 2 && Pairable(b)
  {
    var t := a + [u] + b;
    assert t[|a|] == u;
    forall i | 0 <= i < |a| ensures |a[i]| >= 2 { assert a[i] == t[i]; }
    forall i | 0 <= i < |b| ensures |b[i]| >= 2 { assert b[i] == t[|a| + 1 + i]; }
  }

  lemma {:induction false} UnitsPermuted(units: seq<seq<real>>, other: seq<seq<real>>, all: seq<real>)
    requires Pairable(units) && Pairable(other) && multiset(units) == multiset(other)
    ensures multiset(Flat(units)) == multiset(Flat(other)) && Within(units, all) == Within(other, all)
  {
    hide *;
    SameSize(units, other);
    if |units| > 0 {
      var u, none, rest := units[0], units[..0], units[1..];
      var a, b := TakeOut(units, other);
      assert units == none + [u] + rest && none + rest == rest;
      PairableParts(a, u, b);
      PairableParts(none, u, rest);
      OneUnitOut(u, a, b, all);
      OneUnitOut(u, none, rest, all);
      UnitsPermuted(rest, a + b, all);
    } else {
      assert units == other;
    }
  }

  lemma OneUnitOut(u: seq<real>, a: seq<seq<real>>, b: seq<seq<real>>, all: seq<real>)
    requires |u| >= 2 && Pairable(a) && Pairable(b)
    ensures Pairable(a + [u] + b) && Pairable(a + b)
    ensures Within(a + [u] + b, all) == Within([u], all) + Within(a + b, all)
    ensures multiset(Flat(a + [u] + b)) == multiset(u) + multiset(Flat(a + b))
  {
    WithinConcat(a, b, all);
    WithinConcat(a, [u], all);
    WithinConcat(a + [u], b, all);
    FlatConcat(a, b);
    FlatConcat(a, [u]);
    FlatConcat(a + [u], b);
    assert Flat([u]) == u by { assert [u][1..] == [] && Flat([]) == []; }
  }

  /** Permuting the units changes nothing. */
  lemma UnitOrderIsIrrelevant(units: seq<seq<real>>, other: seq<seq<real>>)
    requires Pairable(units) && Pairable(other) && multiset(units) == multiset(other)
    ensures Alpha(units) == Alpha(other)
  {
    UnitsPermuted(units, other, Flat(units));
    SamePool(units, other);
  }

  // ----- labels -----

  function Map(f: real -> real, s: seq<real>): (t: seq<real>)
    ensures |t| == |s| && forall i | 0 <= i < |s| :: t[i] == f(s[i])
  {
    seq(|s|, i requires 0 <= i < |s| => f(s[i]))
  }

  function MapAll(f: real -> real, units: seq<seq<real>>): (t: seq<seq<real>>)
    ensures |t| == |units| && forall i | 0 <= i < |units| :: t[i] == Map(f, units[i])
  {
    seq(|units|, i requires 0 <= i < |units| => Map(f, units[i]))
  }

  /** Strictly increasing on the scores that are used. */
  predicate Increases(f: real -> real, all: seq<real>) {
    forall i, j | 0 <= i < |all| && 0 <= j < |all| && all[i] < all[j] :: f(all[i]) < f(all[j])
  }

  lemma {:induction false} MidRelabelled(f: real -> real, part: seq<real>, v: real)
    requires forall r | r in part :: Place(f(r), f(v)) == Place(r, v)
    ensures Mid(Map(f, part), f(v)) == Mid(part, v)
  {
    if part != [] {
      assert Map(f, part)[1..] == Map(f, part[1..]);
      MidRelabelled(f, part[1..], v);
    }
  }

  lemma PlacesRelabelled(f: real -> real, all: seq<real>, u: seq<real>)
    requires Increases(f, all) && forall r | r in u :: r in all
    ensures SamePlaces(u, Map(f, u), all, Map(f, all))
  {
    forall i | 0 <= i < |u| ensures Mid(all, u[i]) == Mid(Map(f, all), Map(f, u)[i]) {
      assert u[i] in u;
      forall r | r in all ensures Place(f(r), f(u[i])) == Place(r, u[i]) {
        assert exists j, k | 0 <= j < |all| && 0 <= k < |all| :: all[j] == r && all[k] == u[i];
      }
      MidRelabelled(f, all, u[i]);
    }
  }

  lemma {:induction false} FlatRelabelled(f: real -> real, units: seq<seq<real>>)
    ensures Flat(MapAll(f, units)) == Map(f, Flat(units))
  {
    if units != [] {
      assert MapAll(f, units)[1..] == MapAll(f, units[1..]);
      FlatRelabelled(f, units[1..]);
    }
  }

  lemma {:induction false} WithinRelabelled(f: real -> real, units: seq<seq<real>>, all: seq<real>)
    requires Pairable(units) && Increases(f, all)
    requires forall i | 0 <= i < |units| :: forall r | r in units[i] :: r in all
    ensures Pairable(MapAll(f, units)) && Within(MapAll(f, units), Map(f, all)) == Within(units, all)
  {
    if units != [] {
      assert MapAll(f, units)[1..] == MapAll(f, units[1..]);
      PlacesRelabelled(f, all, units[0]);
      SpreadSame(units[0], Map(f, units[0]), all, Map(f, all));
      assert forall i | 0 <= i < |units| - 1 :: units[1..][i] == units[i + 1];
      WithinRelabelled(f, units[1..], all);
    }
  }

  /** Only the order of the scores matters, not what they are called. */
  lemma LabelsAreIrrelevant(f: real -> real, units: seq<seq<real>>)
    requires Pairable(units) && Increases(f, Flat(units))
    ensures Pairable(MapAll(f, units)) && Alpha(MapAll(f, units)) == Alpha(units)
  {
    hide Ratio;
    var all := Flat(units);
    forall i | 0 <= i < |units| ensures forall r | r in units[i] :: r in all { FlatHolds(units, i); }
    WithinRelabelled(f, units, all);
    FlatRelabelled(f, units);
    PlacesRelabelled(f, all, all);
    SpreadSame(all, Map(f, all), all, Map(f, all));
  }
}
