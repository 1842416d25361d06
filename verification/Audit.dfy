/** Alpha on score tables: raters, items and items that only one rater scored; and the anchor audit,
    which pads missing scores instead of dropping them. */
module Audit {
  import opened Actions
  import opened MidRanks
  import opened AlphaLaws
  import opened Permutations
  import opened Agreement
  import opened Phrases

  // ----- permuting a score table -----

  lemma {:induction false} PresentConcat(a: seq<Option<real>>, b: seq<Option<real>>)
    ensures Present(a + b) == Present(a) + Present(b)
  {
    if b == [] {
      assert a + b == a;
    } else {
      assert (a + b)[..|a + b| - 1] == a + b[..|b| - 1];
      PresentConcat(a, b[..|b| - 1]);
    }
  }

  lemma {:induction false} PresentPermuted(item: seq<Option<real>>, other: seq<Option<real>>)
    requires multiset(item) == multiset(other)
    ensures multiset(Present(item)) == multiset(Present(other))
  {
    SameSize(item, other);
    if item != [] {
      var a, b := TakeOut(item, other);
      PresentPermuted(item[1..], a + b);
      assert item == [item[0]] + item[1..];
      PresentConcat([item[0]], item[1..]);
      PresentConcat(a, b);
      PresentConcat(a, [item[0]]);
      PresentConcat(a + [item[0]], b);
    }
  }

  lemma ItemConcat(a: seq<seq<Option<real>>>, b: seq<seq<Option<real>>>, n: nat, i: nat)
    requires IsRectangular(a, n) && IsRectangular(b, n) && i < n
    ensures IsRectangular(a + b, n) && ItemOf(a + b, n, i) == ItemOf(a, n, i) + ItemOf(b, n, i)
  {
  }

  lemma RectangularParts(a: seq<seq<Option<real>>>, row: seq<Option<real>>, b: seq<seq<Option<real>>>, n: nat)
    requires IsRectangular(a + [row] + b, n)
    ensures IsRectangular(a, n) && IsRectangular([row], n) && IsRectangular(b, n)
  {
    var t := a + [row] + b;
    assert t[|a|] == row;
    forall r | 0 <= r < |a| ensures |a[r]| == n { assert t[r] == a[r]; }
    forall r | 0 <= r < |b| ensures |b[r]| == n { assert t[|a| + 1 + r] == b[r]; }
  }

  lemma RowOut(a: seq<seq<Option<real>>>, row: seq<Option<real>>, b: seq<seq<Option<real>>>, n: nat, i: nat)
    requires IsRectangular(a + [row] + b, n) && i < n
    ensures IsRectangular(a + b, n) && |row| == n
    ensures multiset(ItemOf(a + [row] + b, n, i)) == multiset(ItemOf(a + b, n, i)) + multiset{row[i]}
  {
    RectangularParts(a, row, b, n);
    assert |[row][0]| == n;
    ItemConcat(a, b, n, i);
    ItemConcat(a, [row], n, i);
    ItemConcat(a + [row], b, n, i);
    assert ItemOf([row], n, i) == [row[i]];
  }

  lemma {:induction false} ItemPermuted(rows: seq<seq<Option<real>>>, other: seq<seq<Option<real>>>, n: nat, i: nat)
    requires multiset(rows) == multiset(other) && IsRectangular(rows, n) && IsRectangular(other, n) && i < n
    ensures multiset(ItemOf(rows, n, i)) == multiset(ItemOf(other, n, i))
  {
    hide *;
    SameSize(rows, other);
    if |rows| > 0 {
      var none, rest := rows[..0], rows[1..];
      var a, b := TakeOut(rows, other);
      assert rows == none + [rows[0]] + rest && none + rest == rest;
      RowOut(a, rows[0], b, n, i);
      RowOut(none, rows[0], rest, n, i);
      ItemPermuted(rest, a + b, n, i);
    } else {
      assert rows == other;
    }
  }

  predicate SameScores(items: seq<seq<Option<real>>>, other: seq<seq<Option<real>>>) {
    |items| == |other| && forall i | 0 <= i < |items| :: multiset(items[i]) == multiset(other[i])
  }

  lemma SameRatingsAppend(units: seq<seq<real>>, other: seq<seq<real>>, u: seq<real>, w: seq<real>)
    requires SameRatings(units, other) && multiset(u) == multiset(w)
    ensures SameRatings(Keep(units, u), Keep(other, w))
  {
    SameSize(u, w);
  }

  lemma {:induction false} KeptSameScores(items: seq<seq<Option<real>>>, other: seq<seq<Option<real>>>)
    requires SameScores(items, other)
    ensures SameRatings(Kept(items), Kept(other))
  {
    if items != [] {
      var k := |items| - 1;
      KeptSameScores(items[..k], other[..k]);
      PresentPermuted(items[k], other[k]);
      SameRatingsAppend(Kept(items[..k]), Kept(other[..k]), Present(items[k]), Present(other[k]));
    }
  }

  /** The raters in any order give the same alpha. */
  lemma RatersPermuted(rows: seq<seq<Option<real>>>, other: seq<seq<Option<real>>>, n: nat)
    requires multiset(rows) == multiset(other) && IsRectangular(rows, n) && IsRectangular(other, n)
    ensures Alpha(Units(rows, n)) == Alpha(Units(other, n))
  {
    forall i | 0 <= i < n ensures multiset(Items(rows, n)[i]) == multiset(Items(other, n)[i]) {
      ItemPermuted(rows, other, n, i);
    }
    KeptSameScores(Items(rows, n), Items(other, n));
    RaterOrderIsIrrelevant(Units(rows, n), Units(other, n));
  }

  lemma {:induction false} KeptConcat(a: seq<seq<Option<real>>>, b: seq<seq<Option<real>>>)
    ensures Kept(a + b) == Kept(a) + Kept(b)
  {
    if b == [] {
      assert a + b == a;
    } else {
      assert (a + b)[..|a + b| - 1] == a + b[..|b| - 1];
      KeptConcat(a, b[..|b| - 1]);
    }
  }

  lemma {:induction false} KeptPermuted(items: seq<seq<Option<real>>>, other: seq<seq<Option<real>>>)
    requires multiset(items) == multiset(other)
    ensures multiset(Kept(items)) == multiset(Kept(other))
  {
    SameSize(items, other);
    if items != [] {
      var a, b := TakeOut(items, other);
      KeptPermuted(items[1..], a + b);
      assert items == [items[0]] + items[1..];
      KeptConcat([items[0]], items[1..]);
      KeptConcat(a, b);
      KeptConcat(a, [items[0]]);
      KeptConcat(a + [items[0]], b);
    }
  }

  /** The items in any order give the same alpha. */
  lemma ItemsPermuted(rows: seq<seq<Option<real>>>, other: seq<seq<Option<real>>>, n: nat)
    requires IsRectangular(rows, n) && IsRectangular(other, n) && multiset(Items(rows, n)) == multiset(Items(other, n))
    ensures Alpha(Units(rows, n)) == Alpha(Units(other, n))
  {
    KeptPermuted(Items(rows, n), Items(other, n));
    UnitOrderIsIrrelevant(Units(rows, n), Units(other, n));
  }

  lemma {:induction false} SinglesAreDropped(items: seq<seq<Option<real>>>)
    requires forall i | 0 <= i < |items| :: |Present(items[i])| < 2
    ensures Kept(items) == []
  {
    if items != [] { SinglesAreDropped(items[..|items| - 1]); }
  }

  /** Items that at most one rater scored may stand anywhere without changing alpha. */
  lemma SingleRatingsAreIgnored(rows: seq<seq<Option<real>>>, n: nat, other: seq<seq<Option<real>>>, m: nat,
                                singles: seq<seq<Option<real>>>)
    requires IsRectangular(rows, n) && IsRectangular(other, m)
    requires forall i | 0 <= i < |singles| :: |Present(singles[i])| < 2
    requires multiset(Items(other, m)) == multiset(Items(rows, n)) + multiset(singles)
    ensures Alpha(Units(other, m)) == Alpha(Units(rows, n))
  {
    assert multiset(Items(other, m)) == multiset(Items(rows, n) + singles);
    KeptPermuted(Items(other, m), Items(rows, n) + singles);
    KeptConcat(Items(rows, n), singles);
    SinglesAreDropped(singles);
    assert Kept(Items(rows, n)) + [] == Kept(Items(rows, n));
    UnitOrderIsIrrelevant(Units(other, m), Units(rows, n));
  }

  // ----- which scores count -----

  predicate IsPairable(item: seq<Option<real>>) {
    exists a, b | 0 <= a < b < |item| :: item[a].Some? && item[b].Some?
  }

  predicate IsScored(item: seq<Option<real>>) {
    exists a | 0 <= a < |item| :: item[a].Some?
  }

  lemma ScoredLast(item: seq<Option<real>>)
    requires item != []
    ensures IsScored(item) <==> IsScored(item[..|item| - 1]) || item[|item| - 1].Some?
  {
    var k := |item| - 1;
    if IsScored(item[..k]) {
      var a :| 0 <= a < k && item[..k][a].Some?;
      assert item[a].Some?;
    }
    if IsScored(item) {
      var a :| 0 <= a < |item| && item[a].Some?;
      if a < k { assert item[..k][a].Some?; }
    }
  }

  lemma PairableLast(item: seq<Option<real>>)
    requires item != []
    ensures IsPairable(item) <==>
            IsPairable(item[..|item| - 1]) || (IsScored(item[..|item| - 1]) && item[|item| - 1].Some?)
  {
    var k := |item| - 1;
    if IsPairable(item) {
      var a, b :| 0 <= a < b < |item| && item[a].Some? && item[b].Some?;
      assert item[..k][a].Some?;
      if b < k { assert item[..k][b].Some?; }
    }
    if IsPairable(item[..k]) {
      var a, b :| 0 <= a < b < k && item[..k][a].Some? && item[..k][b].Some?;
      assert item[a].Some? && item[b].Some?;
    }
    if IsScored(item[..k]) && item[k].Some? {
      var a :| 0 <= a < k && item[..k][a].Some?;
      assert item[a].Some? && item[k].Some?;
    }
  }

  /** There are two present scores exactly if two raters scored the item. */
  lemma {:induction false} TwoPresent(item: seq<Option<real>>)
    ensures |Present(item)| >= 2 <==> IsPairable(item)
    ensures |Present(item)| >= 1 <==> IsScored(item)
  {
    if item != [] {
      hide IsPairable, IsScored;
      TwoPresent(item[..|item| - 1]);
      ScoredLast(item);
      PairableLast(item);
    } else {
      assert !IsPairable(item) && !IsScored(item);
    }
  }

  /** The present scores are the item's scores, each as often as it was given. */
  lemma {:induction false} PresentAreTheScores(item: seq<Option<real>>, v: real)
    ensures multiset(Present(item))[v] == multiset(item)[Some(v)]
  {
    if item != [] {
      PresentAreTheScores(item[..|item| - 1], v);
      assert item == item[..|item| - 1] + [item[|item| - 1]];
    }
  }

  predicate AreIncreasing(at: seq<nat>) {
    forall i, j | 0 <= i < j < |at| :: at[i] < at[j]
  }

  /** The units stand for the items at these places. */
  predicate StandFor(units: seq<seq<real>>, at: seq<nat>, items: seq<seq<Option<real>>>) {
    && AreIncreasing(at) && |at| == |units|
    && forall j | 0 <= j < |at| :: at[j] < |items| && units[j] == Present(items[at[j]])
  }

  lemma StandForLast(items: seq<seq<Option<real>>>, at: seq<nat>)
    requires items != [] && StandFor(Kept(items[..|items| - 1]), at, items[..|items| - 1])
    ensures |items| - 1 !in at
    ensures StandFor(Kept(items), if |Present(items[|items| - 1])| >= 2 then at + [|items| - 1] else at, items)
  {
    hide Present;
    forall j | 0 <= j < |at| ensures at[j] < |items| - 1 && items[at[j]] == items[..|items| - 1][at[j]] { }
  }

  predicate Selects(at: seq<nat>, items: seq<seq<Option<real>>>) {
    forall i | 0 <= i < |items| :: i in at <==> IsPairable(items[i])
  }

  lemma SelectsLast(items: seq<seq<Option<real>>>, at: seq<nat>)
    requires items != [] && Selects(at, items[..|items| - 1]) && |items| - 1 !in at
    ensures Selects(if IsPairable(items[|items| - 1]) then at + [|items| - 1] else at, items)
  {
    hide IsPairable;
    forall i | 0 <= i < |items| - 1 ensures i in at <==> IsPairable(items[i]) {
      assert items[..|items| - 1][i] == items[i];
    }
  }

  /** The units are the items that two raters scored, in order and without exception. */
  lemma {:induction false} UnitsAreThePairableItems(items: seq<seq<Option<real>>>) returns (at: seq<nat>)
    ensures StandFor(Kept(items), at, items) && Selects(at, items)
  {
    at := [];
    if items != [] {
      hide *;
      var k := |items| - 1;
      at := UnitsAreThePairableItems(items[..k]);
      TwoPresent(items[k]);
      StandForLast(items, at);
      SelectsLast(items, at);
      if |Present(items[k])| >= 2 { at := at + [k]; }
    }
  }

  // ----- the anchor audit -----

  /** What two evaluators gave the anchors of one task; either may have failed on some. */
  datatype TaskScores = TaskScores(primary: map<string, real>, secondary: map<string, real>)

  datatype AnchorPair = AnchorPair(id: string, primary: real, secondary: real, delta: real)

  /** One evaluator's scores along a list of anchors, padded with None. */
  function Align(ids: seq<string>, scores: map<string, real>): (a: seq<Option<real>>)
    ensures |a| == |ids|
  {
    seq(|ids|, i requires 0 <= i < |ids| => if ids[i] in scores then Some(scores[ids[i]]) else None)
  }

  predicate IsPaired(id: string, t: TaskScores) { id in t.primary && id in t.secondary }

  function PairOf(id: string, t: TaskScores): AnchorPair
    requires IsPaired(id, t)
  {
    var p, s := t.primary[id], t.secondary[id];
    AnchorPair(id, p, s, if p >= s then p - s else s - p)
  }

  /** The anchors both evaluators scored, as units. */
  function Paired(ids: seq<string>, t: TaskScores): (units: seq<seq<real>>)
    ensures Pairable(units)
  {
    if ids == [] then []
    else
      var id := ids[|ids| - 1];
      Paired(ids[..|ids| - 1], t) + if IsPaired(id, t) then [[t.primary[id], t.secondary[id]]] else []
  }

  function Rows(ids: seq<string>, t: TaskScores): (rows: seq<seq<Option<real>>>)
    ensures |rows| == 2 && IsRectangular(rows, |ids|)
  {
    Both(Align(ids, t.primary), Align(ids, t.secondary))
  }

  lemma AlignedItem(ids: seq<string>, t: TaskScores, k: nat)
    requires k < |ids|
    ensures var u := Present(ItemOf(Rows(ids, t), |ids|, k));
            if IsPaired(ids[k], t) then u == [t.primary[ids[k]], t.secondary[ids[k]]] else |u| < 2
  {
    var item := ItemOf(Rows(ids, t), |ids|, k);
    assert item == [item[0], item[1]] && item[..1] == [item[0]] && item[..1][..0] == [];
    assert Present(item[..1]) == (if ids[k] in t.primary then [t.primary[ids[k]]] else []);
  }

  /** Padding drops out: the units of the aligned rows are the pairs. */
  lemma {:induction false} AlignedUnits(ids: seq<string>, t: TaskScores, k: nat)
    requires k <= |ids|
    ensures Kept(Items(Rows(ids, t), |ids|)[..k]) == Paired(ids[..k], t)
  {
    if k > 0 {
      AlignedUnits(ids, t, k - 1);
      AlignedItem(ids, t, k - 1);
      var items := Items(Rows(ids, t), |ids|);
      assert ids[..k][..k - 1] == ids[..k - 1] && items[..k][..k - 1] == items[..k - 1];
    }
  }

  lemma {:induction false} PairedConcat(a: seq<string>, b: seq<string>, t: TaskScores)
    ensures Paired(a + b, t) == Paired(a, t) + Paired(b, t)
  {
    if b == [] {
      assert a + b == a;
    } else {
      assert (a + b)[..|a + b| - 1] == a + b[..|b| - 1];
      PairedConcat(a, b[..|b| - 1], t);
    }
  }

  lemma {:induction false} PairedPermuted(a: seq<string>, b: seq<string>, t: TaskScores)
    requires multiset(a) == multiset(b)
    ensures multiset(Paired(a, t)) == multiset(Paired(b, t))
  {
    SameSize(a, b);
    if a != [] {
      var x, y := TakeOut(a, b);
      PairedPermuted(a[1..], x + y, t);
      assert a == [a[0]] + a[1..];
      PairedConcat([a[0]], a[1..], t);
      PairedConcat(x, y, t);
      PairedConcat(x, [a[0]], t);
      PairedConcat(x + [a[0]], y, t);
    }
  }

  /** Leaving out the anchors that one evaluator missed leaves the pairs. */
  lemma {:induction false} UnpairedDropOut(a: seq<string>, t: TaskScores) returns (kept: seq<string>)
    ensures Paired(kept, t) == Paired(a, t)
    ensures forall id :: multiset(kept)[id] == if IsPaired(id, t) then multiset(a)[id] else 0
  {
    kept := [];
    if a != [] {
      var id := a[|a| - 1];
      assert a == a[..|a| - 1] + [id];
      kept := UnpairedDropOut(a[..|a| - 1], t);
      if IsPaired(id, t) {
        assert (kept + [id])[..|kept|] == kept;
        kept := kept + [id];
      }
    }
  }

  /** For one task, the padded outer join has the units of the inner join, whatever order each is
      listed in. */
  lemma OuterJoinIsInnerJoin(outer: seq<string>, inner: seq<string>, t: TaskScores)
    requires multiset(outer) == multiset(t.primary.Keys + t.secondary.Keys)
    requires multiset(inner) == multiset(t.primary.Keys * t.secondary.Keys)
    ensures multiset(Units(Rows(outer, t), |outer|)) == multiset(Paired(inner, t))
  {
    AlignedUnits(outer, t, |outer|);
    assert outer[..|outer|] == outer && Items(Rows(outer, t), |outer|)[..|outer|] == Items(Rows(outer, t), |outer|);
    var kept := UnpairedDropOut(outer, t);
    assert multiset(kept) == multiset(inner);
    PairedPermuted(kept, inner, t);
  }

  method SortedIds(keys: set<string>) returns (ids: seq<string>)
    ensures multiset(ids) == multiset(keys) && IsSorted(ids)
  {
    var rest, listed := keys, [];
    while rest != {}
      invariant multiset(listed) + multiset(rest) == multiset(keys)
      decreases |rest|
    {
      var id :| id in rest;
      rest, listed := rest - {id}, listed + [id];
    }
    CanonicalSorted(listed);
    ids := Canonical(listed);
  }

  /** `_compose_per_anchor_scores` */
  method ComposePairs(t: TaskScores, ids: seq<string>) returns (pairs: seq<AnchorPair>)
    requires forall i | 0 <= i < |ids| :: IsPaired(ids[i], t)
    ensures |pairs| == |ids| && forall i | 0 <= i < |ids| :: pairs[i] == PairOf(ids[i], t)
  {
    pairs := [];
    for i := 0 to |ids|
      invariant |pairs| == i && forall j | 0 <= j < i :: pairs[j] == PairOf(ids[j], t)
    {
      pairs := pairs + [PairOf(ids[i], t)];
    }
  }

  /** The pairs as the units of the inner join. */
  function UnitsOf(pairs: seq<AnchorPair>): (units: seq<seq<real>>)
    ensures |units| == |pairs| && Pairable(units)
  {
    seq(|pairs|, i requires 0 <= i < |pairs| => [pairs[i].primary, pairs[i].secondary])
  }

  lemma {:induction false} PairsAreUnits(t: TaskScores, ids: seq<string>, pairs: seq<AnchorPair>)
    requires |pairs| == |ids|
    requires forall i | 0 <= i < |ids| :: IsPaired(ids[i], t) && pairs[i] == PairOf(ids[i], t)
    ensures UnitsOf(pairs) == Paired(ids, t)
  {
    if ids != [] {
      PairsAreUnits(t, ids[..|ids| - 1], pairs[..|ids| - 1]);
      assert UnitsOf(pairs) == UnitsOf(pairs[..|ids| - 1]) + [[pairs[|ids| - 1].primary, pairs[|ids| - 1].secondary]];
    }
  }

  /** One task's pairs and its padded rows: the same units, in another order. */
  method AuditTask(t: TaskScores)
    returns (pairs: seq<AnchorPair>, primary: seq<Option<real>>, secondary: seq<Option<real>>)
    ensures |primary| == |secondary|
    ensures multiset(Units(Both(primary, secondary), |primary|)) == multiset(UnitsOf(pairs))
  {
    var inner := SortedIds(t.primary.Keys * t.secondary.Keys);
    forall i | 0 <= i < |inner| ensures IsPaired(inner[i], t) { assert inner[i] in multiset(inner); }
    pairs := ComposePairs(t, inner);
    PairsAreUnits(t, inner, pairs);
    var outer := SortedIds(t.primary.Keys + t.secondary.Keys);
    OuterJoinIsInnerJoin(outer, inner, t);
    primary, secondary := Align(outer, t.primary), Align(outer, t.secondary);
  }

  lemma UnitsOfConcat(a: seq<AnchorPair>, b: seq<AnchorPair>)
    ensures UnitsOf(a + b) == UnitsOf(a) + UnitsOf(b)
  {
  }

  function Both(p: seq<Option<real>>, s: seq<Option<real>>): (rows: seq<seq<Option<real>>>)
    requires |p| == |s|
    ensures IsRectangular(rows, |p|)
  {
    [p, s]
  }

  lemma ListsGrow(p: seq<Option<real>>, s: seq<Option<real>>, p': seq<Option<real>>, s': seq<Option<real>>)
    requires |p| == |s| && |p'| == |s'|
    ensures Units(Both(p + p', s + s'), |p + p'|) == Units(Both(p, s), |p|) + Units(Both(p', s'), |p'|)
  {
    var a, b := Items(Both(p, s), |p|), Items(Both(p', s'), |p'|);
    var c := Items(Both(p + p', s + s'), |p + p'|);
    forall i | 0 <= i < |c| ensures c[i] == (a + b)[i] { }
    assert c == a + b;
    KeptConcat(a, b);
  }

  /** The sentinel is no alpha. */
  lemma AboveMinusOne(units: seq<seq<real>>)
    requires Pairable(units) && units != []
    ensures Alpha(units) > -1.0
  {
    hide Alpha;
    AlphaInRange(units);
    FlatSize(units);
    Positive(1.0 / |Flat(units)| as real, 2.0);
  }

  /** `_audit_all_tasks`: alpha over the padded lists is alpha over the anchors both evaluators
      scored; -1 exactly when there are none, and otherwise alpha is never refused. */
  method AuditAllTasks(tasks: seq<TaskScores>) returns (pairs: seq<AnchorPair>, alpha: real)
    ensures pairs == [] <==> alpha == -1.0
    ensures pairs != [] ==> alpha == Alpha(UnitsOf(pairs))
  {
    pairs := [];
    var primary, secondary: seq<Option<real>> := [], [];
    for i := 0 to |tasks|
      invariant |primary| == |secondary|
      invariant multiset(Units(Both(primary, secondary), |primary|)) == multiset(UnitsOf(pairs))
    {
      var more, p, s := AuditTask(tasks[i]);
      ListsGrow(primary, secondary, p, s);
      UnitsOfConcat(pairs, more);
      pairs, primary, secondary := pairs + more, primary + p, secondary + s;
    }
    if pairs == [] { return pairs, -1.0; }
    SameSize(Units(Both(primary, secondary), |primary|), UnitsOf(pairs));
    var r := KrippendorffAlphaOrdinal(Both(primary, secondary));
    UnitOrderIsIrrelevant(Units(Both(primary, secondary), |primary|), UnitsOf(pairs));
    alpha := if r.Value? then r.alpha else -1.0;
    AboveMinusOne(UnitsOf(pairs));
  }
}
