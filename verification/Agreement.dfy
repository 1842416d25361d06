/** `krippendorff_alpha_ordinal` as it is computed, over value counts and prefix sums, and that this
    is the agreement of mid-ranks. */
module Agreement {
  import opened Actions
  import opened MidRanks

  datatype AlphaError = TooFewRaters | UnequalRows | NoItems | NothingPairable
  datatype AlphaOut = Value(alpha: real) | Undefined(error: AlphaError)

  predicate IsRectangular(rows: seq<seq<Option<real>>>, n: nat) {
    forall r | 0 <= r < |rows| :: |rows[r]| == n
  }

  /** What the raters gave item `i`, in rater order. */
  function ItemOf(rows: seq<seq<Option<real>>>, n: nat, i: nat): (item: seq<Option<real>>)
    requires IsRectangular(rows, n) && i < n
    ensures |item| == |rows| && forall r | 0 <= r < |rows| :: item[r] == rows[r][i]
  {
    seq(|rows|, r requires 0 <= r < |rows| => rows[r][i])
  }

  function Items(rows: seq<seq<Option<real>>>, n: nat): (items: seq<seq<Option<real>>>)
    requires IsRectangular(rows, n)
    ensures |items| == n && forall i | 0 <= i < n :: items[i] == ItemOf(rows, n, i)
  {
    seq(n, i requires 0 <= i < n => ItemOf(rows, n, i))
  }

  /** The scores that are not missing. */
  function Present(item: seq<Option<real>>): (u: seq<real>) {
    if item == [] then []
    else Present(item[..|item| - 1]) + if item[|item| - 1].Some? then [item[|item| - 1].value] else []
  }

  /** A unit is kept when it can be paired. */
  function Keep(units: seq<seq<real>>, u: seq<real>): seq<seq<real>> {
    if |u| >= 2 then units + [u] else units
  }

  function Kept(items: seq<seq<Option<real>>>): (units: seq<seq<real>>)
    ensures Pairable(units)
  {
    if items == [] then [] else Keep(Kept(items[..|items| - 1]), Present(items[|items| - 1]))
  }

  /** The items that at least two raters scored. */
  function Units(rows: seq<seq<Option<real>>>, n: nat): (units: seq<seq<real>>)
    requires IsRectangular(rows, n)
    ensures Pairable(units)
  {
    Kept(Items(rows, n))
  }

  // ----- counting by value -----

  predicate IsAscending(values: seq<real>) {
    forall i, j | 0 <= i < j < |values| :: values[i] < values[j]
  }

  function Count(u: seq<real>, v: real): nat {
    if u == [] then 0 else (if u[0] == v then 1 else 0) + Count(u[1..], v)
  }

  function Weights(u: seq<real>, values: seq<real>): (w: seq<real>)
    ensures |w| == |values|
  {
    seq(|values|, c requires 0 <= c < |values| => Count(u, values[c]) as real)
  }

  function Positions(all: seq<real>, values: seq<real>): (x: seq<real>)
    ensures |x| == |values|
  {
    seq(|values|, c requires 0 <= c < |values| => Mid(all, values[c]))
  }

  /** Weighted power sum over the values from `c` on. */
  function Suffix(w: seq<real>, x: seq<real>, c: nat, p: nat): real
    requires |w| == |x| && c <= |w|
    decreases |w| - c
  {
    if c == |w| then 0.0 else w[c] * Power(x[c], p) + Suffix(w, x, c + 1, p)
  }

  /** n_c n_k δ² */
  function Term(a: real, b: real, d: real): real { a * b * d }

  /** What row `c` of the double sum still adds from column `k` on, … */
  function RowRest(w: seq<real>, x: seq<real>, c: nat, k: nat): real
    requires |w| == |x| && c < |w| && k <= |w|
    decreases |w| - k
  {
    if k == |w| then 0.0 else Term(w[c], w[k], Square(x[k] - x[c])) + RowRest(w, x, c, k + 1)
  }

  /** … and the whole double sum from row `c` on. */
  function PairRest(w: seq<real>, x: seq<real>, c: nat): real
    requires |w| == |x| && c <= |w|
    decreases |w| - c
  {
    if c == |w| then 0.0 else RowRest(w, x, c, c + 1) + PairRest(w, x, c + 1)
  }

  lemma RowStep(a: real, b: real, y: real, x: real, k: real, s: real, q: real, k': real, s': real, q': real)
    requires k' == b + k && s' == b * y + s && q' == b * Square(y) + q
    ensures Term(a, b, Square(y - x)) + a * Parabola(k, s, q, x) == a * Parabola(k', s', q', x)
  {
    var d := Square(y - x);
    assert d == Square(y) - 2.0 * (y * x) + Square(x);
    assert b * d == b * Square(y) - 2.0 * (b * (y * x)) + b * Square(x) by {
      Distribute(b, Square(y), 2.0 * (y * x), Square(x));
    }
    assert x * (b * y + s) == b * (y * x) + x * s;
    assert (b + k) * Square(x) == b * Square(x) + k * Square(x);
    assert b * d + Parabola(k, s, q, x) == Parabola(k', s', q', x);
    assert a * b * d == a * (b * d);
    assert a * (b * d + Parabola(k, s, q, x)) == a * (b * d) + a * Parabola(k, s, q, x);
  }

  lemma SuffixStep(w: seq<real>, x: seq<real>, c: nat)
    requires |w| == |x| && c < |w|
    ensures Suffix(w, x, c, 0) == w[c] + Suffix(w, x, c + 1, 0)
    ensures Suffix(w, x, c, 1) == w[c] * x[c] + Suffix(w, x, c + 1, 1)
    ensures Suffix(w, x, c, 2) == w[c] * Square(x[c]) + Suffix(w, x, c + 1, 2)
  {
    hide Square;
    assert Power(x[c], 0) == 1.0 && Power(x[c], 1) == x[c] && Power(x[c], 2) == Square(x[c]);
  }

  lemma SuffixEnd(w: seq<real>, x: seq<real>)
    requires |w| == |x|
    ensures Suffix(w, x, |w|, 0) == Suffix(w, x, |w|, 1) == Suffix(w, x, |w|, 2) == 0.0
  {
  }

  lemma {:induction false} RowClosed(w: seq<real>, x: seq<real>, c: nat, k: nat)
    requires |w| == |x| && c < |w| && k <= |w|
    ensures RowRest(w, x, c, k) == w[c] * Parabola(Suffix(w, x, k, 0), Suffix(w, x, k, 1), Suffix(w, x, k, 2), x[c])
    decreases |w| - k
  {
    hide Square, Parabola, Power, Term;
    if k == |w| {
      SuffixEnd(w, x);
      ParabolaZero(w[c], x[c]);
    } else {
      RowClosed(w, x, c, k + 1);
      SuffixStep(w, x, k);
      RowStep(w[c], w[k], x[k], x[c], Suffix(w, x, k + 1, 0), Suffix(w, x, k + 1, 1), Suffix(w, x, k + 1, 2),
              Suffix(w, x, k, 0), Suffix(w, x, k, 1), Suffix(w, x, k, 2));
    }
  }

  lemma ParabolaZero(a: real, x: real)
    ensures a * Parabola(0.0, 0.0, 0.0, x) == 0.0
  {
    assert 0.0 * Square(x) == 0.0 && x * 0.0 == 0.0;
  }

  lemma WeightedStep(a: real, x: real, k: real, s: real, q: real, k': real, s': real, q': real)
    requires k' == a + k && s' == a * x + s && q' == a * Square(x) + q
    ensures a * Parabola(k, s, q, x) + Variance(k, s, q) == Variance(k', s', q')
  {
    var y := a * Square(x);
    assert (a + k) * (y + q) == a * y + a * q + k * y + k * q;
    assert Square(a * x + s) == Square(a * x) + 2.0 * (a * x * s) + Square(s);
    assert Square(a * x) == a * y;
    assert a * (k * Square(x)) == k * y;
    assert a * (2.0 * (x * s)) == 2.0 * (a * x * s);
    Distribute(a, k * Square(x), 2.0 * (x * s), q);
  }

  lemma PairStep(w: seq<real>, x: seq<real>, c: nat)
    requires |w| == |x| && c < |w|
    ensures PairRest(w, x, c) ==
            w[c] * Parabola(Suffix(w, x, c + 1, 0), Suffix(w, x, c + 1, 1), Suffix(w, x, c + 1, 2), x[c]) +
            PairRest(w, x, c + 1)
  {
    hide Square, Parabola, Power, Term;
    RowClosed(w, x, c, c + 1);
  }

  /** The double sum over values is a variance as well. */
  lemma {:induction false} PairClosed(w: seq<real>, x: seq<real>, c: nat)
    requires |w| == |x| && c <= |w|
    ensures PairRest(w, x, c) == Variance(Suffix(w, x, c, 0), Suffix(w, x, c, 1), Suffix(w, x, c, 2))
    decreases |w| - c
  {
    hide Square, Parabola, Variance, Power;
    if c == |w| {
      SuffixEnd(w, x);
      VarianceZero();
    } else {
      PairClosed(w, x, c + 1);
      SuffixStep(w, x, c);
      PairStep(w, x, c);
      WeightedStep(w[c], x[c], Suffix(w, x, c + 1, 0), Suffix(w, x, c + 1, 1), Suffix(w, x, c + 1, 2),
                   Suffix(w, x, c, 0), Suffix(w, x, c, 1), Suffix(w, x, c, 2));
    }
  }

  /** One more rating adds its power to the grouped sum, once. */
  lemma {:induction false} SuffixAddsOne(r: real, u: seq<real>, values: seq<real>, all: seq<real>, c: nat, p: nat)
    requires IsAscending(values) && c <= |values|
    ensures Suffix(Weights([r] + u, values), Positions(all, values), c, p) ==
            Suffix(Weights(u, values), Positions(all, values), c, p) +
            if r in values[c..] then Power(Mid(all, r), p) else 0.0
    decreases |values| - c
  {
    hide Power;
    if c < |values| {
      SuffixAddsOne(r, u, values, all, c + 1, p);
      var n, y := Count(u, values[c]) as real, Power(Mid(all, values[c]), p);
      assert ([r] + u)[1..] == u;
      assert (1.0 + n) * y == y + n * y;
      assert values[c..] == [values[c]] + values[c + 1..];
      if r == values[c] {
        assert forall i | c < i < |values| :: values[i] != r;
      }
    }
  }

  lemma {:induction false} SuffixOfNone(values: seq<real>, x: seq<real>, c: nat, p: nat)
    requires |x| == |values| && c <= |values|
    ensures Suffix(Weights([], values), x, c, p) == 0.0
    decreases |values| - c
  {
    hide Power;
    if c < |values| {
      SuffixOfNone(values, x, c + 1, p);
      assert 0.0 * Power(x[c], p) == 0.0;
    }
  }

  /** Grouping the ratings by value loses nothing. */
  lemma {:induction false} Grouped(u: seq<real>, values: seq<real>, all: seq<real>, p: nat)
    requires IsAscending(values) && forall r | r in u :: r in values
    ensures Suffix(Weights(u, values), Positions(all, values), 0, p) == Moment(u, all, p)
  {
    hide Power;
    if u == [] {
      SuffixOfNone(values, Positions(all, values), 0, p);
    } else {
      Grouped(u[1..], values, all, p);
      SuffixAddsOne(u[0], u[1..], values, all, 0, p);
      assert [u[0]] + u[1..] == u && values[0..] == values;
    }
  }

  /** The sum over values the code takes is the spread of the unit's ratings. */
  lemma PairsAreSpread(u: seq<real>, values: seq<real>, all: seq<real>)
    requires IsAscending(values) && forall r | r in u :: r in values
    ensures PairRest(Weights(u, values), Positions(all, values), 0) == Spread(u, all)
  {
    hide Variance, Square, Power;
    PairClosed(Weights(u, values), Positions(all, values), 0);
    SpreadClosed(u, all);
    Grouped(u, values, all, 0);
    Grouped(u, values, all, 1);
    Grouped(u, values, all, 2);
  }

  // ----- prefix sums -----

  function Cumulative(all: seq<real>, values: seq<real>, k: nat): nat
    requires k <= |values|
  {
    if k == 0 then 0 else Cumulative(all, values, k - 1) + Count(all, values[k - 1])
  }

  lemma {:induction false} CumulativeAddsOne(r: real, rest: seq<real>, values: seq<real>, k: nat)
    requires IsAscending(values) && k <= |values|
    ensures Cumulative([r] + rest, values, k) == Cumulative(rest, values, k) + if r in values[..k] then 1 else 0
  {
    assert ([r] + rest)[1..] == rest;
    if k > 0 {
      CumulativeAddsOne(r, rest, values, k - 1);
      assert values[..k] == values[..k - 1] + [values[k - 1]];
      if r == values[k - 1] { assert forall i | 0 <= i < k - 1 :: values[..k - 1][i] == values[i] != r; }
    }
  }

  lemma {:induction false} CumulativeOfNone(values: seq<real>, k: nat)
    requires k <= |values|
    ensures Cumulative([], values, k) == 0
  {
    if k > 0 { CumulativeOfNone(values, k - 1); }
  }

  /** A value's mid-rank is its prefix sum less half its own count. */
  lemma {:induction false} MidIsCumulative(all: seq<real>, values: seq<real>, k: nat)
    requires IsAscending(values) && k < |values| && forall r | r in all :: r in values
    ensures Mid(all, values[k]) == Cumulative(all, values, k + 1) as real - Count(all, values[k]) as real / 2.0
  {
    if all == [] {
      CumulativeOfNone(values, k + 1);
    } else {
      var r, rest := all[0], all[1..];
      assert all == [r] + rest && r in all;
      MidIsCumulative(rest, values, k);
      CumulativeAddsOne(r, rest, values, k + 1);
      var i :| 0 <= i < |values| && values[i] == r;
      assert r in values[..k + 1] <==> i <= k by {
        if i <= k { assert values[..k + 1][i] == r; }
      }
    }
  }

  lemma {:induction false} CountConcat(a: seq<real>, b: seq<real>, v: real)
    ensures Count(a + b, v) == Count(a, v) + Count(b, v)
  {
    if a == [] {
      assert a + b == b;
    } else {
      assert (a + b)[1..] == a[1..] + b;
      CountConcat(a[1..], b, v);
    }
  }

  // ----- the computation -----

  /** The units × raters matrix; None is its NaN. */
  method BuildMatrix(rows: seq<seq<Option<real>>>, n: nat) returns (matrix: array2<Option<real>>)
    requires IsRectangular(rows, n)
    ensures fresh(matrix) && matrix.Length0 == n && matrix.Length1 == |rows|
    ensures forall i, c | 0 <= i < n && 0 <= c < |rows| :: matrix[i, c] == rows[c][i]
  {
    matrix := new Option<real>[n, |rows|]((i, c) => None);
    for c := 0 to |rows|
      invariant forall i, d | 0 <= i < n && 0 <= d < |rows| :: matrix[i, d] == if d < c then rows[d][i] else None
    {
      for i := 0 to n
        invariant forall j, d | 0 <= j < n && 0 <= d < |rows| ::
                    matrix[j, d] == if d < c || (d == c && j < i) then rows[d][j] else None
      {
        if rows[c][i].Some? { matrix[i, c] := rows[c][i]; }
      }
    }
  }

  /** The ratings in one row of the matrix. */
  method Ratings(item: seq<Option<real>>, matrix: array2<Option<real>>, i: nat) returns (u: seq<real>)
    requires i < matrix.Length0 && matrix.Length1 == |item|
    requires forall c | 0 <= c < |item| :: matrix[i, c] == item[c]
    ensures u == Present(item)
  {
    u := [];
    for c := 0 to |item|
      invariant u == Present(item[..c])
    {
      assert item[..c + 1][..c] == item[..c];
      if matrix[i, c].Some? { u := u + [matrix[i, c].value]; }
    }
    assert item[..|item|] == item;
  }

  /** Drops the items that fewer than two raters scored. */
  method PairableUnits(rows: seq<seq<Option<real>>>, n: nat) returns (units: seq<seq<real>>)
    requires IsRectangular(rows, n)
    ensures units == Units(rows, n)
  {
    var matrix := BuildMatrix(rows, n);
    ghost var items := Items(rows, n);
    units := [];
    for i := 0 to n
      invariant units == Kept(items[..i])
      invariant forall j, c | 0 <= j < n && 0 <= c < |rows| :: matrix[j, c] == rows[c][j]
    {
      assert items[..i + 1][..i] == items[..i];
      var u := Ratings(ItemOf(rows, n, i), matrix, i);
      if |u| >= 2 { units := units + [u]; }
    }
    assert items[..n] == items;
  }

  /** `np.unique` */
  method UniqueValues(flat: seq<real>) returns (values: seq<real>)
    ensures IsAscending(values)
    ensures forall r :: r in values <==> r in flat
  {
    values := [];
    for i := 0 to |flat|
      invariant IsAscending(values)
      invariant forall r :: r in values <==> r in flat[..i]
    {
      var v, at := flat[i], 0;
      while at < |values| && values[at] < v
        invariant 0 <= at <= |values| && forall j | 0 <= j < at :: values[j] < v
      {
        at := at + 1;
      }
      assert flat[..i + 1] == flat[..i] + [v];
      if at == |values| || values[at] != v {
        ghost var old' := values;
        values := values[..at] + [v] + values[at..];
        assert forall r :: r in values <==> r in old' || r == v by { assert old' == old'[..at] + old'[at..]; }
      }
    }
  }

  /** `np.cumsum` */
  method PrefixSums(totals: seq<real>, ghost all: seq<real>, ghost values: seq<real>) returns (cumsum: seq<real>)
    requires totals == Weights(all, values)
    ensures |cumsum| == |values| && forall k | 0 <= k < |values| :: cumsum[k] == Cumulative(all, values, k + 1) as real
  {
    cumsum := [];
    var sum := 0.0;
    for k := 0 to |totals|
      invariant |cumsum| == k && sum == Cumulative(all, values, k) as real
      invariant forall j | 0 <= j < k :: cumsum[j] == Cumulative(all, values, j + 1) as real
    {
      sum := sum + totals[k];
      cumsum := cumsum + [sum];
    }
  }

  /** δ² from prefix sums: the squared distance of two values' mid-ranks. */
  method OrdinalDistances(totals: seq<real>, ghost all: seq<real>, ghost values: seq<real>)
    returns (delta: array2<real>)
    requires IsAscending(values) && totals == Weights(all, values) && forall r | r in all :: r in values
    ensures fresh(delta) && delta.Length0 == delta.Length1 == |totals|
    ensures forall c, k | 0 <= c < k < |totals| ::
              delta[c, k] == delta[k, c] == Square(Positions(all, values)[k] - Positions(all, values)[c])
  {
    var m := |totals|;
    var cumsum := PrefixSums(totals, all, values);
    ghost var x := Positions(all, values);
    forall k | 0 <= k < m ensures x[k] == cumsum[k] - totals[k] / 2.0 { MidIsCumulative(all, values, k); }
    delta := Distances(totals, cumsum, x);
  }

  method Distances(totals: seq<real>, cumsum: seq<real>, ghost x: seq<real>) returns (delta: array2<real>)
    requires |cumsum| == |x| == |totals| && forall k | 0 <= k < |totals| :: x[k] == cumsum[k] - totals[k] / 2.0
    ensures fresh(delta) && delta.Length0 == delta.Length1 == |totals|
    ensures forall c, k | 0 <= c < k < |totals| :: delta[c, k] == delta[k, c] == Square(x[k] - x[c])
  {
    hide Square;
    var m := |totals|;
    delta := new real[m, m]((c, k) => 0.0);
    for c := 0 to m
      invariant forall a, b | 0 <= a < c && a < b < m :: delta[a, b] == delta[b, a] == Square(x[b] - x[a])
    {
      for k := c + 1 to m
        invariant forall a, b | 0 <= a < b < m && (a < c || (a == c && b < k)) ::
                    delta[a, b] == delta[b, a] == Square(x[b] - x[a])
      {
        var between := cumsum[k] - cumsum[c] + totals[c];
        var term := between - (totals[c] + totals[k]) / 2.0;
        assert term == x[k] - x[c];
        var d := Square(term);
        delta[c, k], delta[k, c] := d, d;
      }
    }
  }

  /** Σ over c < k of n_c n_k δ²(c, k) */
  method PairSum(w: seq<real>, delta: array2<real>, ghost x: seq<real>) returns (sum: real)
    requires delta.Length0 == delta.Length1 == |w| == |x|
    requires forall c, k | 0 <= c < k < |w| :: delta[c, k] == Square(x[k] - x[c])
    ensures sum == PairRest(w, x, 0)
  {
    hide Square, Term;
    sum := 0.0;
    for c := 0 to |w|
      invariant sum + PairRest(w, x, c) == PairRest(w, x, 0)
    {
      for k := c + 1 to |w|
        invariant sum + RowRest(w, x, c, k) + PairRest(w, x, c + 1) == PairRest(w, x, 0)
      {
        sum := sum + Term(w[c], w[k], delta[c, k]);
      }
    }
  }

  /** n_uc of one unit */
  method CountValues(u: seq<real>, values: seq<real>) returns (w: seq<real>)
    ensures w == Weights(u, values)
  {
    w := [];
    for c := 0 to |values|
      invariant |w| == c && forall j | 0 <= j < c :: w[j] == Count(u, values[j]) as real
    {
      w := w + [Count(u, values[c]) as real];
    }
  }

  lemma UnitValues(units: seq<seq<real>>, i: nat, values: seq<real>)
    requires i < |units| && forall r | r in Flat(units) :: r in values
    ensures forall r | r in units[i] :: r in values
  {
    FlatHolds(units, i);
  }

  /** Σ over units of the unit's pair sum over (n_u - 1) */
  method ObservedSum(units: seq<seq<real>>, values: seq<real>, delta: array2<real>) returns (sum: real)
    requires Pairable(units) && IsAscending(values) && forall r | r in Flat(units) :: r in values
    requires delta.Length0 == delta.Length1 == |values|
    requires var x := Positions(Flat(units), values);
             forall c, k | 0 <= c < k < |values| :: delta[c, k] == Square(x[k] - x[c])
    ensures sum == Within(units, Flat(units))
  {
    hide Square, Positions;
    ghost var all := Flat(units);
    ghost var x := Positions(all, values);
    sum := 0.0;
    assert units[0..] == units;
    for u := 0 to |units|
      invariant sum + Within(units[u..], all) == Within(units, all)
    {
      assert units[u..][0] == units[u] && units[u..][1..] == units[u + 1..];
      var w := CountValues(units[u], values);
      var pairs := PairSum(w, delta, x);
      UnitValues(units, u, values);
      PairsAreSpread(units[u], values, all);
      sum := sum + pairs / (|units[u]| as real - 1.0);
    }
  }

  lemma OneValue(all: seq<real>, values: seq<real>)
    requires IsAscending(values) && all != []
    requires forall r :: r in values <==> r in all
    ensures |values| == 1 <==> IsConstant(all)
  {
    var v := all[0];
    assert v in all && v in values;
    if |values| == 1 {
      forall i | 0 <= i < |all| ensures all[i] == values[0] { assert all[i] in all; }
    } else {
      assert values[0] in all && values[1] in all && values[0] != values[1];
    }
  }

  lemma {:induction false} FlatIsAll(units: seq<seq<real>>)
    requires Pairable(units) && units != []
    ensures Flat(units) != []
  {
    FlatSize(units);
  }

  /** The last steps, on units with two different scores: neither later fallback can be taken and the
      clamp changes nothing. */
  method AlphaOf(units: seq<seq<real>>, values: seq<real>) returns (alpha: real)
    requires Pairable(units) && units != [] && !IsConstant(Flat(units))
    requires IsAscending(values) && forall r | r in Flat(units) :: r in values
    ensures alpha == Alpha(units)
  {
    hide Square, Positions, Weights;
    var all := Flat(units);
    var totals := CountValues(all, values);
    var delta := OrdinalDistances(totals, all, values);
    var observed := ObservedSum(units, values, delta);
    var expected := PairSum(totals, delta, Positions(all, values));
    PairsAreSpread(all, values, all);
    ExpectedIsPositive(units);
    AlphaInRange(units);
    alpha := Clamped(observed, expected, |all| as real);
  }

  method Clamped(observed: real, expected: real, n: real) returns (alpha: real)
    requires expected > 0.0 && n >= 2.0 && -1.0 <= 1.0 - Ratio(observed, expected, n) <= 1.0
    ensures alpha == 1.0 - Ratio(observed, expected, n)
  {
    var pairs := n * (n - 1.0);
    PositivePairs(expected, n);
    alpha := 1.0 - (observed / n) / (expected / pairs);
    alpha := if alpha > 1.0 then 1.0 else alpha;
    alpha := if alpha < -1.0 then -1.0 else alpha;
  }

  /** The code's alpha is the agreement of mid-ranks over the units rated at least twice; it is
      refused exactly for the four malformed inputs, in this order. */
  method KrippendorffAlphaOrdinal(rows: seq<seq<Option<real>>>) returns (r: AlphaOut)
    ensures |rows| < 2 ==> r == Undefined(TooFewRaters)
    ensures |rows| >= 2 && !IsRectangular(rows, |rows[0]|) ==> r == Undefined(UnequalRows)
    ensures |rows| >= 2 && IsRectangular(rows, |rows[0]|) ==>
              if |rows[0]| == 0 then r == Undefined(NoItems)
              else if Units(rows, |rows[0]|) == [] then r == Undefined(NothingPairable)
              else r == Value(Alpha(Units(rows, |rows[0]|)))
  {
    if |rows| < 2 { return Undefined(TooFewRaters); }
    var n := |rows[0]|;
    for i := 0 to |rows|
      invariant forall j | 0 <= j < i :: |rows[j]| == n
    {
      if |rows[i]| != n { return Undefined(UnequalRows); }
    }
    if n == 0 { return Undefined(NoItems); }
    var units := PairableUnits(rows, n);
    if units == [] { return Undefined(NothingPairable); }
    var flat := Flat(units);
    FlatIsAll(units);
    var values := UniqueValues(flat);
    OneValue(flat, values);
    SpreadZero(flat, flat);
    if |values| == 1 { return Value(1.0); }
    var alpha := AlphaOf(units, values);
    r := Value(alpha);
  }
}
