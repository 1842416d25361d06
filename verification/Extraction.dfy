/** `score_extraction`: greedy matching of predicted to expected actions, counted at three levels. */
module Extraction {
  import opened Actions
  import opened Permutations

  datatype Prediction = NotAnObject | Predicted(action: Json, summary: string, deadline: Json)
  datatype Expected = Expected(action: string, summary: string, deadline: Json)

  /** A row without a parseable prediction or without ground truth is skipped. */
  datatype Row = Skipped | Scored(predicted: seq<Prediction>, expected: seq<Expected>)

  /** What a prediction is matched with: nothing, a type, or a type and a similar summary. */
  datatype Hit = Miss | TypeOnly(at: nat) | Full(at: nat)

  datatype Counts = Counts(
    tpType: nat, fpType: nat, fnType: nat, tpSim: nat, fpSim: nat, fnSim: nat, tpDl: nat, fpDl: nat, fnDl: nat)

  const ZERO := Counts(0, 0, 0, 0, 0, 0, 0, 0, 0)

  function Add(a: Counts, b: Counts): Counts {
    Counts(a.tpType + b.tpType, a.fpType + b.fpType, a.fnType + b.fnType,
           a.tpSim + b.tpSim, a.fpSim + b.fpSim, a.fnSim + b.fnSim,
           a.tpDl + b.tpDl, a.fpDl + b.fpDl, a.fnDl + b.fnDl)
  }

  // ----- greedy matching, said of its result -----

  predicate IsFree(p: Prediction, expected: seq<Expected>, used: set<nat>, x: nat) {
    p.Predicted? && x < |expected| && x !in used && p.action == Text(expected[x].action)
  }

  predicate IsAlike(p: Prediction, expected: seq<Expected>, used: set<nat>, x: nat, similar: (string, string) -> bool) {
    IsFree(p, expected, used, x) && similar(p.summary, expected[x].summary)
  }

  /** The first unused action of the type with a similar summary; failing that the first unused one
      of the type; failing that nothing. */
  predicate IsChoice(p: Prediction, expected: seq<Expected>, used: set<nat>, similar: (string, string) -> bool, h: Hit)
  {
    match h
    case Full(x) =>
      IsAlike(p, expected, used, x, similar) && forall y: nat | y < x :: !IsAlike(p, expected, used, y, similar)
    case TypeOnly(x) =>
      && (forall y: nat | y < |expected| :: !IsAlike(p, expected, used, y, similar))
      && IsFree(p, expected, used, x) && forall y: nat | y < x :: !IsFree(p, expected, used, y)
    case Miss => forall y: nat | y < |expected| :: !IsFree(p, expected, used, y)
  }

  /** The expected actions a list of hits has used up. */
  function Used(hits: seq<Hit>): set<nat> {
    if hits == [] then {}
    else
      var h := hits[|hits| - 1];
      if h.Miss? then Used(hits[..|hits| - 1]) else Used(hits[..|hits| - 1]) + {h.at}
  }

  /** Each prediction in turn takes its choice among what the ones before it left. */
  predicate IsGreedy(ps: seq<Prediction>, expected: seq<Expected>, similar: (string, string) -> bool, hits: seq<Hit>) {
    && |hits| == |ps|
    && (|ps| == 0 ||
        var k := |ps| - 1;
        && IsGreedy(ps[..k], expected, similar, hits[..k])
        && IsChoice(ps[k], expected, Used(hits[..k]), similar, hits[k]))
  }

  lemma ChoiceIsUnique(p: Prediction, expected: seq<Expected>, used: set<nat>, similar: (string, string) -> bool,
      g: Hit, h: Hit)
    requires IsChoice(p, expected, used, similar, g) && IsChoice(p, expected, used, similar, h)
    ensures g == h
  {
    assert g.Full? ==> IsAlike(p, expected, used, g.at, similar);
    assert h.Full? ==> IsAlike(p, expected, used, h.at, similar);
  }

  /** There is one greedy matching. */
  lemma {:induction false} GreedyIsUnique(ps: seq<Prediction>, expected: seq<Expected>,
      similar: (string, string) -> bool,
      g: seq<Hit>, h: seq<Hit>)
    requires IsGreedy(ps, expected, similar, g) && IsGreedy(ps, expected, similar, h)
    ensures g == h
  {
    hide IsChoice;
    if |ps| > 0 {
      var k := |ps| - 1;
      GreedyIsUnique(ps[..k], expected, similar, g[..k], h[..k]);
      ChoiceIsUnique(ps[k], expected, Used(g[..k]), similar, g[k], h[k]);
      assert g == g[..k] + [g[k]] && h == h[..k] + [h[k]];
    }
  }

  // ----- counting -----

  /** What one prediction adds. */
  function Gain(p: Prediction, expected: seq<Expected>, h: Hit): Counts {
    match h
    case Full(x) =>
      var same := p.Predicted? && x < |expected| && expected[x].deadline == p.deadline;
      Counts(1, 0, 0, 1, 0, 0, if same then 1 else 0, if same then 0 else 1, if same then 0 else 1)
    case TypeOnly(_) => Counts(1, 0, 0, 0, 1, 1, 0, 1, 1)
    case Miss => Counts(0, 1, 0, 0, 1, 0, 0, 1, 0)
  }

  function Tally(ps: seq<Prediction>, expected: seq<Expected>, hits: seq<Hit>): Counts {
    if |ps| == 0 || |hits| != |ps| then ZERO
    else
      var k := |ps| - 1;
      Add(Tally(ps[..k], expected, hits[..k]), Gain(ps[k], expected, hits[k]))
  }

  /** The expected actions among the first `n` that nothing used. */
  function Unused(used: set<nat>, n: nat): nat {
    if n == 0 then 0 else Unused(used, n - 1) + if n - 1 in used then 0 else 1
  }

  /** One row's counters: the tally of the hits, and a false negative at every level for each
      expected action left over. */
  function RowCounts(ps: seq<Prediction>, expected: seq<Expected>, hits: seq<Hit>): Counts {
    Add(Tally(ps, expected, hits), Leftover(Used(hits), |expected|))
  }

  /** A chosen action was not used before. */
  lemma ChoiceIsNew(p: Prediction, expected: seq<Expected>, used: set<nat>, similar: (string, string) -> bool, h: Hit)
    requires IsChoice(p, expected, used, similar, h) && !h.Miss?
    ensures h.at < |expected| && h.at !in used && p.Predicted? && p.action == Text(expected[h.at].action)
  {
    assert IsFree(p, expected, used, h.at);
  }

  predicate IsTallied(c: Counts, predictions: nat, used: nat) {
    && c.tpType + c.fpType == c.tpSim + c.fpSim == c.tpDl + c.fpDl == predictions
    && c.tpType == c.tpSim + c.fnSim == c.tpDl + c.fnDl == used && c.fnType == 0
    && c.tpDl <= c.tpSim <= c.tpType
  }

  lemma GainIsTallied(p: Prediction, expected: seq<Expected>, h: Hit, c: Counts, predictions: nat, used: nat)
    requires IsTallied(c, predictions, used)
    ensures IsTallied(Add(c, Gain(p, expected, h)), predictions + 1, used + if h.Miss? then 0 else 1)
  {
  }

  /** How many hits there are. */
  function Matched(hits: seq<Hit>): nat {
    if |hits| == 0 then 0 else Matched(hits[..|hits| - 1]) + if hits[|hits| - 1].Miss? then 0 else 1
  }

  lemma ZeroIsTallied()
    ensures IsTallied(ZERO, 0, 0)
  {
  }

  lemma {:induction false} TallyIsTallied(ps: seq<Prediction>, expected: seq<Expected>, hits: seq<Hit>)
    requires |hits| == |ps|
    ensures IsTallied(Tally(ps, expected, hits), |ps|, Matched(hits))
  {
    hide Add, Gain, IsTallied;
    if |ps| == 0 {
      NothingTallied(ps, expected, hits);
      ZeroIsTallied();
    } else {
      var k := |ps| - 1;
      TallyIsTallied(ps[..k], expected, hits[..k]);
      GainIsTallied(ps[k], expected, hits[k], Tally(ps[..k], expected, hits[..k]), k, Matched(hits[..k]));
    }
  }

  lemma {:induction false} UnusedAll(n: nat)
    ensures Unused({}, n) == n
  {
    if n > 0 { UnusedAll(n - 1); }
  }

  lemma {:induction false} UseTakesOne(used: set<nat>, x: nat, n: nat)
    requires x !in used
    ensures Unused(used + {x}, n) + (if x < n then 1 else 0) == Unused(used, n)
  {
    if n > 0 { UseTakesOne(used, x, n - 1); }
  }

  /** Every hit uses up one expected action of its own. */
  lemma {:induction false} UnusedAndMatched(ps: seq<Prediction>, expected: seq<Expected>,
      similar: (string, string) -> bool, hits: seq<Hit>)
    requires IsGreedy(ps, expected, similar, hits)
    ensures Unused(Used(hits), |expected|) + Matched(hits) == |expected|
  {
    hide IsChoice;
    if |ps| == 0 {
      UnusedAll(|expected|);
    } else {
      var k := |ps| - 1;
      UnusedAndMatched(ps[..k], expected, similar, hits[..k]);
      if !hits[k].Miss? {
        ChoiceIsNew(ps[k], expected, Used(hits[..k]), similar, hits[k]);
        UseTakesOne(Used(hits[..k]), hits[k].at, |expected|);
      }
    }
  }

  /** Nothing is lost: true and false positives are the predictions and true positives and false
      negatives the expected actions, at each level; and each level is at most the coarser one. */
  predicate IsConserved(c: Counts, predictions: nat, expected: nat) {
    && c.tpType + c.fpType == c.tpSim + c.fpSim == c.tpDl + c.fpDl == predictions
    && c.tpType + c.fnType == c.tpSim + c.fnSim == c.tpDl + c.fnDl == expected
    && c.tpDl <= c.tpSim <= c.tpType
  }

  lemma LeftoverConserves(c: Counts, used: set<nat>, predictions: nat, matched: nat, n: nat)
    requires IsTallied(c, predictions, matched) && Unused(used, n) + matched == n
    ensures IsConserved(Add(c, Leftover(used, n)), predictions, n) && Add(c, Leftover(used, n)).tpType == matched
  {
    hide Unused;
  }

  lemma RowIsConserved(ps: seq<Prediction>, expected: seq<Expected>, similar: (string, string) -> bool, hits: seq<Hit>)
    requires IsGreedy(ps, expected, similar, hits)
    ensures IsConserved(RowCounts(ps, expected, hits), |ps|, |expected|)
    ensures RowCounts(ps, expected, hits).tpType == Matched(hits)
  {
    hide IsConserved, IsTallied, Add, Leftover, IsChoice;
    TallyIsTallied(ps, expected, hits);
    UnusedAndMatched(ps, expected, similar, hits);
    LeftoverConserves(Tally(ps, expected, hits), Used(hits), |ps|, Matched(hits), |expected|);
  }

  // ----- the type level is a maximum matching -----

  function TypeOf(p: Prediction): Option<string> {
    if p.Predicted? && p.action.Text? then Some(p.action.text) else None
  }

  /** Predictions of type `t`, expected actions of type `t` among the first `n`, and those used. */
  function PredictedOf(ps: seq<Prediction>, t: string): nat {
    if ps == [] then 0 else PredictedOf(ps[..|ps| - 1], t) + if TypeOf(ps[|ps| - 1]) == Some(t) then 1 else 0
  }

  function ExpectedOf(expected: seq<Expected>, n: nat, t: string): nat
    requires n <= |expected|
  {
    if n == 0 then 0 else ExpectedOf(expected, n - 1, t) + if expected[n - 1].action == t then 1 else 0
  }

  function UsedOf(expected: seq<Expected>, used: set<nat>, n: nat, t: string): nat
    requires n <= |expected|
  {
    if n == 0 then 0
    else UsedOf(expected, used, n - 1, t) + if expected[n - 1].action == t && n - 1 in used then 1 else 0
  }

  lemma {:induction false} UsedAtMost(expected: seq<Expected>, used: set<nat>, n: nat, t: string)
    requires n <= |expected|
    ensures UsedOf(expected, used, n, t) <= ExpectedOf(expected, n, t)
    ensures (forall x: nat | x < n && expected[x].action == t :: x in used) ==>
        UsedOf(expected, used, n, t) == ExpectedOf(expected, n, t)
  {
    if n > 0 { UsedAtMost(expected, used, n - 1, t); }
  }

  /** Using a free action adds one of its type, and there was room for it. */
  lemma {:induction false} UseAddsOne(expected: seq<Expected>, used: set<nat>, x: nat, n: nat, t: string)
    requires n <= |expected| && x < |expected| && x !in used
    ensures UsedOf(expected, used + {x}, n, t) ==
            UsedOf(expected, used, n, t) + if x < n && expected[x].action == t then 1 else 0
    ensures x < n && expected[x].action == t ==> UsedOf(expected, used, n, t) < ExpectedOf(expected, n, t)
  {
    if n > 0 {
      UseAddsOne(expected, used, x, n - 1, t);
      UsedAtMost(expected, used, n - 1, t);
    }
  }

  lemma {:induction false} NoneUsed(expected: seq<Expected>, n: nat, t: string)
    requires n <= |expected|
    ensures UsedOf(expected, {}, n, t) == 0
  {
    if n > 0 { NoneUsed(expected, n - 1, t); }
  }

  lemma MissMeansFull(p: Prediction, expected: seq<Expected>, used: set<nat>, similar: (string, string) -> bool,
      t: string)
    requires IsChoice(p, expected, used, similar, Miss) && TypeOf(p) == Some(t)
    ensures UsedOf(expected, used, |expected|, t) == ExpectedOf(expected, |expected|, t)
  {
    forall x: nat | x < |expected| && expected[x].action == t ensures x in used {
      assert !IsFree(p, expected, used, x);
    }
    UsedAtMost(expected, used, |expected|, t);
  }

  function Fewer(a: nat, b: nat): nat { if a <= b then a else b }

  /** Whatever the order of the predictions and whatever counts as similar, each type is matched as
      often as it can be. */
  lemma {:induction false} TypesAreMatched(ps: seq<Prediction>, expected: seq<Expected>,
      similar: (string, string) -> bool,
      hits: seq<Hit>, t: string)
    requires IsGreedy(ps, expected, similar, hits)
    ensures UsedOf(expected, Used(hits), |expected|, t) ==
        Fewer(PredictedOf(ps, t), ExpectedOf(expected, |expected|, t))
  {
    hide IsChoice;
    if |ps| == 0 {
      NoneUsed(expected, |expected|, t);
    } else {
      var k := |ps| - 1;
      TypesAreMatched(ps[..k], expected, similar, hits[..k], t);
      ChoiceMatches(ps[k], expected, Used(hits[..k]), similar, hits[k], t, PredictedOf(ps[..k], t));
    }
  }

  lemma ChoiceMatches(p: Prediction, expected: seq<Expected>, used: set<nat>, similar: (string, string) -> bool,
      h: Hit, t: string, n: nat)
    requires IsChoice(p, expected, used, similar, h)
    requires UsedOf(expected, used, |expected|, t) == Fewer(n, ExpectedOf(expected, |expected|, t))
    ensures UsedOf(expected, if h.Miss? then used else used + {h.at}, |expected|, t) ==
            Fewer(if TypeOf(p) == Some(t) then n + 1 else n, ExpectedOf(expected, |expected|, t))
  {
    hide IsChoice;
    if !h.Miss? {
      ChoiceIsNew(p, expected, used, similar, h);
      UseAddsOne(expected, used, h.at, |expected|, t);
    } else if TypeOf(p) == Some(t) {
      MissMeansFull(p, expected, used, similar, t);
    }
  }

  // ----- all types together -----

  function PredictedTypes(ps: seq<Prediction>): multiset<string> {
    if ps == [] then multiset{}
    else
      var t := TypeOf(ps[|ps| - 1]);
      PredictedTypes(ps[..|ps| - 1]) + if t.Some? then multiset{t.value} else multiset{}
  }

  function ExpectedTypes(expected: seq<Expected>, n: nat): (m: multiset<string>)
    requires n <= |expected|
  {
    if n == 0 then multiset{} else ExpectedTypes(expected, n - 1) + multiset{expected[n - 1].action}
  }

  function UsedTypes(expected: seq<Expected>, used: set<nat>, n: nat): (m: multiset<string>)
    requires n <= |expected|
    ensures |m| + Unused(used, n) == n
  {
    if n == 0 then multiset{}
    else if n - 1 in used then UsedTypes(expected, used, n - 1) + multiset{expected[n - 1].action}
    else UsedTypes(expected, used, n - 1)
  }

  lemma {:induction false} PredictedMany(ps: seq<Prediction>, t: string)
    ensures PredictedTypes(ps)[t] == PredictedOf(ps, t)
  {
    if ps != [] { PredictedMany(ps[..|ps| - 1], t); }
  }

  lemma {:induction false} ExpectedMany(expected: seq<Expected>, used: set<nat>, n: nat, t: string)
    requires n <= |expected|
    ensures ExpectedTypes(expected, n)[t] == ExpectedOf(expected, n, t)
    ensures UsedTypes(expected, used, n)[t] == UsedOf(expected, used, n, t)
  {
    if n > 0 { ExpectedMany(expected, used, n - 1, t); }
  }

  /** The type-level true positives of a row: for each type the fewer of predicted and expected. */
  function TypeOverlap(ps: seq<Prediction>, expected: seq<Expected>): nat {
    |PredictedTypes(ps) * ExpectedTypes(expected, |expected|)|
  }

  lemma UsedTypesAreTheOverlap(ps: seq<Prediction>, expected: seq<Expected>, similar: (string, string) -> bool,
      hits: seq<Hit>)
    requires IsGreedy(ps, expected, similar, hits)
    ensures UsedTypes(expected, Used(hits), |expected|) == PredictedTypes(ps) * ExpectedTypes(expected, |expected|)
  {
    hide IsGreedy, UsedTypes, Used, PredictedTypes, ExpectedTypes;
    var n, used := |expected|, Used(hits);
    forall t ensures UsedTypes(expected, used, n)[t] == (PredictedTypes(ps) * ExpectedTypes(expected, n))[t] {
      TypesAreMatched(ps, expected, similar, hits, t);
      PredictedMany(ps, t);
      ExpectedMany(expected, used, n, t);
    }
  }

  lemma TypeHitsAreTheOverlap(ps: seq<Prediction>, expected: seq<Expected>, similar: (string, string) -> bool,
      hits: seq<Hit>)
    requires IsGreedy(ps, expected, similar, hits)
    ensures Matched(hits) == TypeOverlap(ps, expected)
  {
    hide IsGreedy, UsedTypes, Used, PredictedTypes, ExpectedTypes, Unused, Matched;
    UnusedAndMatched(ps, expected, similar, hits);
    UsedTypesAreTheOverlap(ps, expected, similar, hits);
    assert |UsedTypes(expected, Used(hits), |expected|)| + Unused(Used(hits), |expected|) == |expected|;
  }

  lemma {:induction false} TypesConcat(a: seq<Prediction>, b: seq<Prediction>)
    ensures PredictedTypes(a + b) == PredictedTypes(a) + PredictedTypes(b)
  {
    if b == [] {
      assert a + b == a;
    } else {
      assert (a + b)[..|a + b| - 1] == a + b[..|b| - 1];
      TypesConcat(a, b[..|b| - 1]);
    }
  }

  lemma {:induction false} TypesPermuted(ps: seq<Prediction>, qs: seq<Prediction>)
    requires multiset(ps) == multiset(qs)
    ensures PredictedTypes(ps) == PredictedTypes(qs)
  {
    SameSize(ps, qs);
    if |ps| > 0 {
      var a, b := TakeOut(ps, qs);
      TypesPermuted(ps[1..], a + b);
      assert ps == [ps[0]] + ps[1..];
      TypesConcat([ps[0]], ps[1..]);
      TypesConcat(a, b);
      TypesConcat(a, [ps[0]]);
      TypesConcat(a + [ps[0]], b);
    }
  }

  /** The type-level counters of a row do not depend on the order of the predictions, nor on what
      counts as similar. */
  lemma TypeLevelIgnoresOrder(ps: seq<Prediction>, qs: seq<Prediction>, expected: seq<Expected>,
      similar: (string, string) -> bool, other: (string, string) -> bool, g: seq<Hit>,
      h: seq<Hit>)
    requires IsGreedy(ps, expected, similar, g) && IsGreedy(qs, expected, other, h) && multiset(ps) == multiset(qs)
    ensures var c, d := RowCounts(ps, expected, g), RowCounts(qs, expected, h);
            c.tpType == d.tpType && c.fpType == d.fpType && c.fnType == d.fnType
  {
    hide *;
    SameSize(ps, qs);
    TypesPermuted(ps, qs);
    SameOverlap(ps, qs, expected);
    TypeHitsAreTheOverlap(ps, expected, similar, g);
    TypeHitsAreTheOverlap(qs, expected, other, h);
    RowIsConserved(ps, expected, similar, g);
    RowIsConserved(qs, expected, other, h);
    ConservedDetermines(RowCounts(ps, expected, g), RowCounts(qs, expected, h), |ps|, |expected|);
  }

  lemma SameOverlap(ps: seq<Prediction>, qs: seq<Prediction>, expected: seq<Expected>)
    requires PredictedTypes(ps) == PredictedTypes(qs)
    ensures TypeOverlap(ps, expected) == TypeOverlap(qs, expected)
  {
  }

  lemma ConservedDetermines(c: Counts, d: Counts, predictions: nat, expected: nat)
    requires IsConserved(c, predictions, expected) && IsConserved(d, predictions, expected) && c.tpType == d.tpType
    ensures c.fpType == d.fpType && c.fnType == d.fnType
  {
  }

  // ----- the loops -----

  /** The two searches for an unused expected action. */
  method MatchAction(p: Prediction, expected: seq<Expected>, used: set<nat>, similar: (string, string) -> bool)
    returns (h: Hit)
    requires p.Predicted?
    ensures IsChoice(p, expected, used, similar, h)
  {
    for x := 0 to |expected|
      invariant forall y: nat | y < x :: !IsAlike(p, expected, used, y, similar)
    {
      if x !in used && Text(expected[x].action) == p.action && similar(p.summary, expected[x].summary) {
        return Full(x);
      }
    }
    for x := 0 to |expected|
      invariant forall y: nat | y < x :: !IsFree(p, expected, used, y)
    {
      if x !in used && Text(expected[x].action) == p.action { return TypeOnly(x); }
    }
    return Miss;
  }

  function Get(m: map<string, nat>, t: string): nat { if t in m then m[t] else 0 }

  function Bump(m: map<string, nat>, t: string): map<string, nat> { m[t := Get(m, t) + 1] }

  /** The predictions that are objects. */
  function Objects(predicted: seq<Prediction>): seq<Prediction> {
    if predicted == [] then []
    else
      var p := predicted[|predicted| - 1];
      Objects(predicted[..|predicted| - 1]) + if p.Predicted? then [p] else []
  }

  /** What one prediction does to the per-type dictionaries. */
  predicate IsTyped(ps: seq<Prediction>, expected: seq<Expected>, used: set<nat>, tp: map<string, nat>,
      fp: map<string, nat>,
      tp': map<string, nat>, fp': map<string, nat>, t: string)
  {
    && Get(tp', t) == Get(tp, t) + UsedOf(expected, used, |expected|, t)
    && Get(tp', t) + Get(fp', t) == Get(tp, t) + Get(fp, t) + PredictedOf(ps, t)
  }

  lemma GreedyGrows(ps: seq<Prediction>, p: Prediction, expected: seq<Expected>, similar: (string, string) -> bool,
      hits: seq<Hit>, h: Hit)
    requires IsGreedy(ps, expected, similar, hits) && IsChoice(p, expected, Used(hits), similar, h)
    ensures IsGreedy(ps + [p], expected, similar, hits + [h])
    ensures Tally(ps + [p], expected, hits + [h]) == Add(Tally(ps, expected, hits), Gain(p, expected, h))
    ensures Used(hits + [h]) == UseHit(Used(hits), h)
  {
    hide IsChoice;
    assert (hits + [h])[..|hits|] == hits && (ps + [p])[..|ps|] == ps;
  }

  function UseHit(used: set<nat>, h: Hit): set<nat> { if h.Miss? then used else used + {h.at} }

  /** The dictionaries after one hit or miss. */
  function TpAfter(m: map<string, nat>, p: Prediction, h: Hit): map<string, nat> {
    if !h.Miss? && TypeOf(p).Some? then Bump(m, TypeOf(p).value) else m
  }

  function FpAfter(m: map<string, nat>, p: Prediction, h: Hit): map<string, nat> {
    if h.Miss? && TypeOf(p).Some? then Bump(m, TypeOf(p).value) else m
  }

  lemma HitIsTyped(ps: seq<Prediction>, p: Prediction, expected: seq<Expected>, used: set<nat>,
      similar: (string, string) -> bool,
      h: Hit, tp: map<string, nat>, fp: map<string, nat>, mid: map<string, nat>, mif: map<string, nat>,
      t: string)
    requires IsChoice(p, expected, used, similar, h) && IsTyped(ps, expected, used, tp, fp, mid, mif, t)
    ensures IsTyped(ps + [p], expected, UseHit(used, h), tp, fp, TpAfter(mid, p, h), FpAfter(mif, p, h), t)
  {
    hide IsChoice;
    assert (ps + [p])[..|ps|] == ps;
    if !h.Miss? {
      ChoiceIsNew(p, expected, used, similar, h);
      UseAddsOne(expected, used, h.at, |expected|, t);
    }
  }

  /** The loop over one row's predictions. */
  method MatchRow(predicted: seq<Prediction>, expected: seq<Expected>, similar: (string, string) -> bool,
      start: Counts, tp: map<string, nat>, fp: map<string, nat>)
    returns (c: Counts, used: set<nat>, tp': map<string, nat>, fp': map<string, nat>, ghost hits: seq<Hit>)
    ensures var ps := Objects(predicted);
            && IsGreedy(ps, expected, similar, hits) && used == Used(hits)
            && c == Add(start, Tally(ps, expected, hits))
            && forall t :: IsTyped(ps, expected, used, tp, fp, tp', fp', t)
  {
    hide *;
    c, used, tp', fp', hits := start, {}, tp, fp, [];
    ghost var ps: seq<Prediction> := [];
    NothingMatched(ps, expected, similar, hits, start, tp, fp);
    ObjectsOfNone(predicted[..0]);
    for i := 0 to |predicted|
      invariant ps == Objects(predicted[..i]) && |hits| == |ps|
      invariant IsGreedy(ps, expected, similar, hits) && used == Used(hits)
      invariant c == Add(start, Tally(ps, expected, hits))
      invariant forall t :: IsTyped(ps, expected, used, tp, fp, tp', fp', t)
    {
      var p := predicted[i];
      ObjectsStep(predicted, i);
      if p.Predicted? {
        var h := MatchAction(p, expected, used, similar);
        GreedyGrows(ps, p, expected, similar, hits, h);
        forall t
          ensures IsTyped(ps + [p], expected, UseHit(used, h), tp, fp, TpAfter(tp', p, h), FpAfter(fp', p, h), t)
        {
          HitIsTyped(ps, p, expected, used, similar, h, tp, fp, tp', fp', t);
        }
        AddAssociates(start, Tally(ps, expected, hits), Gain(p, expected, h));
        c, used, tp', fp' := CountHit(p, expected, used, similar, h, c, tp', fp');
        hits, ps := hits + [h], ps + [p];
      }
    }
    assert predicted[..|predicted|] == predicted;
  }

  lemma ObjectsOfNone(predicted: seq<Prediction>)
    requires |predicted| == 0
    ensures Objects(predicted) == []
  {
  }

  lemma ObjectsStep(predicted: seq<Prediction>, i: nat)
    requires i < |predicted|
    ensures Objects(predicted[..i + 1]) == Objects(predicted[..i]) +
        if predicted[i].Predicted? then [predicted[i]] else []
  {
    assert predicted[..i + 1][..i] == predicted[..i];
  }

  lemma AddAssociates(a: Counts, b: Counts, c: Counts)
    ensures Add(Add(a, b), c) == Add(a, Add(b, c))
  {
  }

  lemma NothingMatched(ps: seq<Prediction>, expected: seq<Expected>, similar: (string, string) -> bool, hits: seq<Hit>,
      c: Counts, tp: map<string, nat>, fp: map<string, nat>)
    requires |ps| == |hits| == 0
    ensures IsGreedy(ps, expected, similar, hits) && Used(hits) == {} && c == Add(c, Tally(ps, expected, hits))
    ensures forall t :: IsTyped(ps, expected, {}, tp, fp, tp, fp, t)
  {
    NothingTallied(ps, expected, hits);
    hide Tally;
    forall t ensures IsTyped(ps, expected, {}, tp, fp, tp, fp, t) { NoneUsed(expected, |expected|, t); }
  }

  /** The counters and dictionaries after one hit or miss. */
  method CountHit(p: Prediction, expected: seq<Expected>, used: set<nat>, ghost similar: (string, string) -> bool,
      h: Hit, c: Counts, tp: map<string, nat>, fp: map<string, nat>)
    returns (c': Counts, used': set<nat>, tp': map<string, nat>, fp': map<string, nat>)
    requires p.Predicted? && IsChoice(p, expected, used, similar, h)
    ensures c' == Add(c, Gain(p, expected, h)) && used' == UseHit(used, h)
    ensures tp' == TpAfter(tp, p, h) && fp' == FpAfter(fp, p, h)
  {
    hide IsChoice;
    c', used', tp', fp' := c, used, tp, fp;
    if !h.Miss? { ChoiceIsNew(p, expected, used, similar, h); }
    match h
    case Full(x) =>
      used' := used + {x};
      c' := c'.(tpType := c'.tpType + 1, tpSim := c'.tpSim + 1);
      if expected[x].deadline == p.deadline {
        c' := c'.(tpDl := c'.tpDl + 1);
      } else {
        c' := c'.(fpDl := c'.fpDl + 1, fnDl := c'.fnDl + 1);
      }
      tp' := Bump(tp', p.action.text);
    case TypeOnly(x) =>
      used' := used + {x};
      c' := c'.(tpType := c'.tpType + 1);
      tp' := Bump(tp', p.action.text);
      c' := c'.(fpSim := c'.fpSim + 1, fpDl := c'.fpDl + 1, fnSim := c'.fnSim + 1, fnDl := c'.fnDl + 1);
    case Miss =>
      c' := c'.(fpType := c'.fpType + 1, fpSim := c'.fpSim + 1, fpDl := c'.fpDl + 1);
      if p.action.Text? { fp' := Bump(fp', p.action.text); }
  }

  /** The loop over the expected actions that nothing matched. */
  method CountUnmatched(expected: seq<Expected>, used: set<nat>, start: Counts, fn: map<string, nat>)
    returns (c: Counts, fn': map<string, nat>)
    ensures c == Add(start, Leftover(used, |expected|))
    ensures forall t ::
              UsedOf(expected, used, |expected|, t) + Get(fn', t) == Get(fn, t) + ExpectedOf(expected, |expected|, t)
  {
    c, fn' := start, fn;
    for x := 0 to |expected|
      invariant c == Add(start, Leftover(used, x))
      invariant forall t :: UsedOf(expected, used, x, t) + Get(fn', t) == Get(fn, t) + ExpectedOf(expected, x, t)
    {
      if x !in used {
        c := c.(fnType := c.fnType + 1, fnSim := c.fnSim + 1, fnDl := c.fnDl + 1);
        fn' := Bump(fn', expected[x].action);
      }
    }
  }

  // ----- a batch -----

  function PredictionsIn(r: Row): seq<Prediction> { if r.Scored? then Objects(r.predicted) else [] }

  function ExpectedIn(r: Row): seq<Expected> { if r.Scored? then r.expected else [] }

  function TotalPredictions(rows: seq<Row>): nat {
    if rows == [] then 0 else TotalPredictions(rows[..|rows| - 1]) + |PredictionsIn(rows[|rows| - 1])|
  }

  function TotalExpected(rows: seq<Row>): nat {
    if rows == [] then 0 else TotalExpected(rows[..|rows| - 1]) + |ExpectedIn(rows[|rows| - 1])|
  }

  /** For each row and type the fewer of predicted and expected, added up. */
  function TotalOverlap(rows: seq<Row>): nat {
    if rows == [] then 0
    else TotalOverlap(rows[..|rows| - 1]) + TypeOverlap(PredictionsIn(rows[|rows| - 1]), ExpectedIn(rows[|rows| - 1]))
  }

  function OverlapOf(rows: seq<Row>, t: string): nat {
    if rows == [] then 0
    else
      var e := ExpectedIn(rows[|rows| - 1]);
      OverlapOf(rows[..|rows| - 1], t) + Fewer(PredictedOf(PredictionsIn(rows[|rows| - 1]), t), ExpectedOf(e, |e|, t))
  }

  function PredictedIn(rows: seq<Row>, t: string): nat {
    if rows == [] then 0 else PredictedIn(rows[..|rows| - 1], t) + PredictedOf(PredictionsIn(rows[|rows| - 1]), t)
  }

  function ExpectedOfType(rows: seq<Row>, t: string): nat {
    if rows == [] then 0
    else
      var e := ExpectedIn(rows[|rows| - 1]);
      ExpectedOfType(rows[..|rows| - 1], t) + ExpectedOf(e, |e|, t)
  }

  /** The greedy matching of every row. */
  predicate AllGreedy(rows: seq<Row>, similar: (string, string) -> bool, hits: seq<seq<Hit>>) {
    && |hits| == |rows|
    && (|rows| == 0 ||
        var k := |rows| - 1;
        && AllGreedy(rows[..k], similar, hits[..k])
        && IsGreedy(PredictionsIn(rows[k]), ExpectedIn(rows[k]), similar, hits[k]))
  }

  function BatchCounts(rows: seq<Row>, hits: seq<seq<Hit>>): Counts {
    if |rows| == 0 || |hits| != |rows| then ZERO
    else
      var k := |rows| - 1;
      Add(BatchCounts(rows[..k], hits[..k]), RowCounts(PredictionsIn(rows[k]), ExpectedIn(rows[k]), hits[k]))
  }

  /** One type's entries: the fewer of predicted and expected are true positives, row by row. */
  predicate IsTypeTable(rows: seq<Row>, tp: map<string, nat>, fp: map<string, nat>, fn: map<string, nat>, t: string) {
    && Get(tp, t) == OverlapOf(rows, t)
    && Get(tp, t) + Get(fp, t) == PredictedIn(rows, t)
    && Get(tp, t) + Get(fn, t) == ExpectedOfType(rows, t)
  }

  /** What one row adds to one type's entries. */
  predicate IsRowTyped(ps: seq<Prediction>, e: seq<Expected>, tp: map<string, nat>, fp: map<string, nat>,
      fn: map<string, nat>,
      tp': map<string, nat>, fp': map<string, nat>, fn': map<string, nat>, t: string)
  {
    && Get(tp', t) == Get(tp, t) + Fewer(PredictedOf(ps, t), ExpectedOf(e, |e|, t))
    && Get(tp', t) + Get(fp', t) == Get(tp, t) + Get(fp, t) + PredictedOf(ps, t)
    && Get(tp', t) + Get(fn', t) == Get(tp, t) + Get(fn, t) + ExpectedOf(e, |e|, t)
  }

  lemma RowIsTyped(ps: seq<Prediction>, e: seq<Expected>, similar: (string, string) -> bool, hits: seq<Hit>,
      tp: map<string, nat>, fp: map<string, nat>, fn: map<string, nat>,
      tp': map<string, nat>, fp': map<string, nat>, fn': map<string, nat>, t: string)
    requires IsGreedy(ps, e, similar, hits) && IsTyped(ps, e, Used(hits), tp, fp, tp', fp', t)
    requires UsedOf(e, Used(hits), |e|, t) + Get(fn', t) == Get(fn, t) + ExpectedOf(e, |e|, t)
    ensures IsRowTyped(ps, e, tp, fp, fn, tp', fp', fn', t)
  {
    TypesAreMatched(ps, e, similar, hits, t);
  }

  /** One row: its loop over the predictions and its loop over what is left. */
  method CountRow(predicted: seq<Prediction>, e: seq<Expected>, similar: (string, string) -> bool, start: Counts,
      tp: map<string, nat>, fp: map<string, nat>, fn: map<string, nat>)
    returns (c: Counts, tp': map<string, nat>, fp': map<string, nat>, fn': map<string, nat>, ghost hits: seq<Hit>)
    ensures var ps := Objects(predicted);
            && IsGreedy(ps, e, similar, hits) && c == Add(start, RowCounts(ps, e, hits))
            && forall t :: IsRowTyped(ps, e, tp, fp, fn, tp', fp', fn', t)
  {
    var used;
    c, used, tp', fp', hits := MatchRow(predicted, e, similar, start, tp, fp);
    ghost var ps := Objects(predicted);
    RowCountsSplit(start, ps, e, hits);
    c, fn' := CountUnmatched(e, used, c, fn);
    hide IsGreedy, Add, RowCounts, Tally, Used, IsTyped, IsRowTyped;
    forall t ensures IsRowTyped(ps, e, tp, fp, fn, tp', fp', fn', t) {
      assert IsTyped(ps, e, used, tp, fp, tp', fp', t);
      RowIsTyped(ps, e, similar, hits, tp, fp, fn, tp', fp', fn', t);
    }
  }

  lemma RowCountsSplit(start: Counts, ps: seq<Prediction>, e: seq<Expected>, hits: seq<Hit>)
    requires |hits| == |ps|
    ensures Add(Add(start, Tally(ps, e, hits)), Leftover(Used(hits), |e|)) == Add(start, RowCounts(ps, e, hits))
  {
    AddAssociates(start, Tally(ps, e, hits), Leftover(Used(hits), |e|));
  }

  function Leftover(used: set<nat>, n: nat): Counts {
    var u := Unused(used, n);
    Counts(0, 0, u, 0, 0, u, 0, 0, u)
  }

  lemma BatchGrows(rows: seq<Row>, r: Row, similar: (string, string) -> bool, hits: seq<seq<Hit>>, h: seq<Hit>)
    requires AllGreedy(rows, similar, hits) && IsGreedy(PredictionsIn(r), ExpectedIn(r), similar, h)
    ensures AllGreedy(rows + [r], similar, hits + [h])
    ensures BatchCounts(rows + [r], hits + [h]) ==
            Add(BatchCounts(rows, hits), RowCounts(PredictionsIn(r), ExpectedIn(r), h))
  {
    hide IsGreedy, Add, RowCounts, PredictionsIn, ExpectedIn;
    HitsPerRow(rows, similar, hits);
    assert (rows + [r])[..|rows|] == rows && (hits + [h])[..|rows|] == hits;
  }

  lemma AddConserves(a: Counts, b: Counts, p: nat, q: nat, e: nat, f: nat)
    requires IsConserved(a, p, e) && IsConserved(b, q, f)
    ensures IsConserved(Add(a, b), p + q, e + f) && Add(a, b).tpType == a.tpType + b.tpType
  {
  }

  lemma BatchStep(rows: seq<Row>, similar: (string, string) -> bool, hits: seq<seq<Hit>>, k: nat)
    requires AllGreedy(rows, similar, hits) && |rows| == k + 1
    ensures |hits| == k + 1 && |hits[k]| == |PredictionsIn(rows[k])|
    ensures AllGreedy(rows[..k], similar, hits[..k]) &&
        IsGreedy(PredictionsIn(rows[k]), ExpectedIn(rows[k]), similar, hits[k])
    ensures BatchCounts(rows, hits) ==
            Add(BatchCounts(rows[..k], hits[..k]), RowCounts(PredictionsIn(rows[k]), ExpectedIn(rows[k]), hits[k]))
  {
    hide Add, RowCounts, IsChoice;
  }

  lemma EmptyBatch(rows: seq<Row>, similar: (string, string) -> bool, hits: seq<seq<Hit>>)
    requires |rows| == |hits| == 0
    ensures AllGreedy(rows, similar, hits) && BatchCounts(rows, hits) == ZERO
    ensures TotalPredictions(rows) == TotalExpected(rows) == TotalOverlap(rows) == 0
  {
  }

  lemma HitsPerRow(rows: seq<Row>, similar: (string, string) -> bool, hits: seq<seq<Hit>>)
    requires AllGreedy(rows, similar, hits)
    ensures |hits| == |rows|
  {
  }

  lemma TotalsStep(rows: seq<Row>, k: nat)
    requires |rows| == k + 1
    ensures TotalPredictions(rows) == TotalPredictions(rows[..k]) + |PredictionsIn(rows[k])|
    ensures TotalExpected(rows) == TotalExpected(rows[..k]) + |ExpectedIn(rows[k])|
    ensures TotalOverlap(rows) == TotalOverlap(rows[..k]) + TypeOverlap(PredictionsIn(rows[k]), ExpectedIn(rows[k]))
  {
    hide TypeOverlap, PredictionsIn, ExpectedIn;
  }

  /** The row-by-row laws add up: `a` for the rows before, `b` for the last one. */
  lemma BatchAddsUp(a: Counts, rows: seq<Row>, similar: (string, string) -> bool, k: nat, h: seq<Hit>)
    requires |rows| == k + 1 && IsGreedy(PredictionsIn(rows[k]), ExpectedIn(rows[k]), similar, h)
    requires |h| == |PredictionsIn(rows[k])|
    requires IsConserved(a, TotalPredictions(rows[..k]), TotalExpected(rows[..k])) &&
        a.tpType == TotalOverlap(rows[..k])
    ensures var c := Add(a, RowCounts(PredictionsIn(rows[k]), ExpectedIn(rows[k]), h));
            IsConserved(c, TotalPredictions(rows), TotalExpected(rows)) && c.tpType == TotalOverlap(rows)
  {
    hide *;
    var ps, e := PredictionsIn(rows[k]), ExpectedIn(rows[k]);
    TotalsStep(rows, k);
    RowIsConserved(ps, e, similar, h);
    TypeHitsAreTheOverlap(ps, e, similar, h);
    AddConserves(a, RowCounts(ps, e, h), TotalPredictions(rows[..k]), |ps|, TotalExpected(rows[..k]), |e|);
  }

  lemma {:induction false} BatchIsConserved(rows: seq<Row>, similar: (string, string) -> bool, hits: seq<seq<Hit>>)
    requires AllGreedy(rows, similar, hits)
    ensures IsConserved(BatchCounts(rows, hits), TotalPredictions(rows), TotalExpected(rows))
    ensures BatchCounts(rows, hits).tpType == TotalOverlap(rows)
  {
    hide *;
    HitsPerRow(rows, similar, hits);
    if |rows| == 0 {
      EmptyBatch(rows, similar, hits);
      ZeroIsConserved();
    } else {
      var k := |rows| - 1;
      BatchStep(rows, similar, hits, k);
      BatchIsConserved(rows[..k], similar, hits[..k]);
      BatchAddsUp(BatchCounts(rows[..k], hits[..k]), rows, similar, k, hits[k]);
    }
  }

  lemma ZeroIsConserved()
    ensures IsConserved(ZERO, 0, 0) && ZERO.tpType == 0
  {
  }

  // ----- F1 -----

  function F1(tp: nat, fp: nat, fn: nat): real {
    if tp == 0 && fp == 0 && fn == 0 then 0.0
    else
      var precision := if tp + fp > 0 then tp as real / (tp + fp) as real else 0.0;
      var recall := if tp + fn > 0 then tp as real / (tp + fn) as real else 0.0;
      if precision + recall == 0.0 then 0.0 else 2.0 * precision * recall / (precision + recall)
  }

  lemma Over(a: real, b: real)
    requires b > 0.0
    ensures (a / b) * b == a && (a > 0.0 ==> a / b > 0.0) && (a == 0.0 ==> a / b == 0.0)
  {
  }

  lemma Harmonic(t: real, p: real, e: real)
    requires t > 0.0 && p > 0.0 && e > 0.0
    ensures t / p + t / e > 0.0 && 2.0 * (t / p) * (t / e) / (t / p + t / e) == 2.0 * t / (p + e)
  {
    Over(t, p);
    Over(t, e);
    var a, b := t / p, t / e;
    var s := a + b;
    assert s * (p * e) == t * (p + e) by {
      assert a * (p * e) == t * e;
      assert b * (p * e) == t * p;
    }
    assert a * b * (p * e) == t * t by { assert a * b * (p * e) == (a * p) * (b * e); }
    Ratio(2.0 * a * b, s, 2.0 * t, p + e, p * e, t);
  }

  /** x / s == y / q when both sides are scaled by the same positive amounts. */
  lemma Ratio(x: real, s: real, y: real, q: real, m: real, t: real)
    requires s > 0.0 && q > 0.0 && m > 0.0 && t > 0.0
    requires s * m == t * q && x * m == y * t
    ensures x / s == y / q
  {
    var u, v := x / s, y / q;
    assert u * s == x && v * q == y;
    assert u * (s * m) == x * m;
    assert u * (t * q) == (v * q) * t;
    assert (u - v) * (t * q) == 0.0;
    assert t * q > 0.0;
  }

  /** F1 is twice the true positives over predictions plus expected. */
  lemma F1Closed(tp: nat, fp: nat, fn: nat)
    ensures F1(tp, fp, fn) == if tp == 0 then 0.0 else 2.0 * tp as real / (tp + fp + (tp + fn)) as real
  {
    if tp > 0 {
      Harmonic(tp as real, (tp + fp) as real, (tp + fn) as real);
    } else {
      if fp > 0 { Over(0.0, fp as real); }
      if fn > 0 { Over(0.0, fn as real); }
    }
  }

  lemma F1Grows(a: nat, b: nat, predictions: nat, expected: nat)
    requires a <= b <= predictions && b <= expected
    ensures F1(a, predictions - a, expected - a) <= F1(b, predictions - b, expected - b)
  {
    F1Closed(a, predictions - a, expected - a);
    F1Closed(b, predictions - b, expected - b);
    if b > 0 { Fractions(2.0 * a as real, 2.0 * b as real, (predictions + expected) as real); }
  }

  lemma F1Chain(c: Counts, predictions: nat, expected: nat)
    requires IsConserved(c, predictions, expected)
    ensures F1(c.tpDl, c.fpDl, c.fnDl) <= F1(c.tpSim, c.fpSim, c.fnSim) <= F1(c.tpType, c.fpType, c.fnType)
  {
    hide F1;
    F1Grows(c.tpDl, c.tpSim, predictions, expected);
    F1Grows(c.tpSim, c.tpType, predictions, expected);
  }

  lemma Fractions(x: real, y: real, d: real)
    requires 0.0 <= x <= y && d > 0.0
    ensures 0.0 <= x / d <= y / d
  {
    var u, v := x / d, y / d;
    assert u * d == x && v * d == y;
    assert (v - u) * d == y - x;
  }

  // ----- the whole function -----

  lemma TableGrows(rows: seq<Row>, r: Row, tp: map<string, nat>, fp: map<string, nat>, fn: map<string, nat>,
      tp': map<string, nat>, fp': map<string, nat>, fn': map<string, nat>, t: string)
    requires IsTypeTable(rows, tp, fp, fn, t)
    requires IsRowTyped(PredictionsIn(r), ExpectedIn(r), tp, fp, fn, tp', fp', fn', t)
    ensures IsTypeTable(rows + [r], tp', fp', fn', t)
  {
    assert (rows + [r])[..|rows|] == rows;
  }

  /** The counters are those of the one greedy matching of each row; at every level they account for
      every prediction and every expected action; the type level matches each type in each row as
      often as possible, whatever the order and the similarity; and the finer F1 is never higher. */
  method ScoreExtraction(rows: seq<Row>, similar: (string, string) -> bool)
    returns (c: Counts, f1Type: real, f1Sim: real, f1Dl: real,
             tp: map<string, nat>, fp: map<string, nat>, fn: map<string, nat>, ghost hits: seq<seq<Hit>>)
    ensures AllGreedy(rows, similar, hits) && c == BatchCounts(rows, hits)
    ensures IsConserved(c, TotalPredictions(rows), TotalExpected(rows)) && c.tpType == TotalOverlap(rows)
    ensures forall t :: IsTypeTable(rows, tp, fp, fn, t)
    ensures f1Type == F1(c.tpType, c.fpType, c.fnType) && f1Sim == F1(c.tpSim, c.fpSim, c.fnSim)
    ensures f1Dl == F1(c.tpDl, c.fpDl, c.fnDl) && f1Dl <= f1Sim <= f1Type
  {
    c, tp, fp, fn, hits := CountBatch(rows, similar);
    BatchIsConserved(rows, similar, hits);
    hide AllGreedy, BatchCounts, TotalOverlap, TotalPredictions, TotalExpected, F1, IsTypeTable, IsConserved;
    f1Type, f1Sim, f1Dl := F1(c.tpType, c.fpType, c.fnType), F1(c.tpSim, c.fpSim, c.fnSim), F1(c.tpDl, c.fpDl, c.fnDl);
    F1Chain(c, TotalPredictions(rows), TotalExpected(rows));
  }

  /** The loop over the rows; a skipped row counts nothing. */
  method CountBatch(rows: seq<Row>, similar: (string, string) -> bool)
    returns (c: Counts, tp: map<string, nat>, fp: map<string, nat>, fn: map<string, nat>, ghost hits: seq<seq<Hit>>)
    ensures AllGreedy(rows, similar, hits) && c == BatchCounts(rows, hits)
    ensures forall t :: IsTypeTable(rows, tp, fp, fn, t)
  {
    c, tp, fp, fn, hits := ZERO, map[], map[], map[], [];
    hide AllGreedy, BatchCounts, IsTypeTable, IsRowTyped, IsGreedy, Add, RowCounts, PredictionsIn, ExpectedIn;
    EmptyBatch(rows[..0], similar, hits);
    NothingInTable(rows[..0]);
    for i := 0 to |rows|
      invariant AllGreedy(rows[..i], similar, hits) && c == BatchCounts(rows[..i], hits)
      invariant forall t :: IsTypeTable(rows[..i], tp, fp, fn, t)
    {
      ghost var before, tp0, fp0, fn0 := rows[..i], tp, fp, fn;
      ghost var after := before + [rows[i]];
      ghost var h: seq<Hit>;
      c, tp, fp, fn, h := CountAnyRow(rows[i], similar, c, tp, fp, fn);
      BatchGrows(before, rows[i], similar, hits, h);
      hits := hits + [h];
      assert rows[..i + 1] == after;
      forall t ensures IsTypeTable(after, tp, fp, fn, t) {
        assert IsTypeTable(before, tp0, fp0, fn0, t);
        assert IsRowTyped(PredictionsIn(rows[i]), ExpectedIn(rows[i]), tp0, fp0, fn0, tp, fp, fn, t);
        TableGrows(before, rows[i], tp0, fp0, fn0, tp, fp, fn, t);
      }
    }
    assert rows[..|rows|] == rows;
  }

  lemma NothingInTable(rows: seq<Row>)
    requires |rows| == 0
    ensures forall t :: IsTypeTable(rows, map[], map[], map[], t)
  {
  }

  /** A row, skipped or not. */
  method CountAnyRow(r: Row, similar: (string, string) -> bool, start: Counts,
      tp: map<string, nat>, fp: map<string, nat>, fn: map<string, nat>)
    returns (c: Counts, tp': map<string, nat>, fp': map<string, nat>, fn': map<string, nat>, ghost h: seq<Hit>)
    ensures IsGreedy(PredictionsIn(r), ExpectedIn(r), similar, h)
    ensures c == Add(start, RowCounts(PredictionsIn(r), ExpectedIn(r), h))
    ensures forall t :: IsRowTyped(PredictionsIn(r), ExpectedIn(r), tp, fp, fn, tp', fp', fn', t)
  {
    hide IsGreedy, Add, RowCounts, IsRowTyped;
    if r.Scored? {
      c, tp', fp', fn', h := CountRow(r.predicted, r.expected, similar, start, tp, fp, fn);
    } else {
      c, tp', fp', fn', h := start, tp, fp, fn, [];
      NothingCounted(PredictionsIn(r), ExpectedIn(r), h, start);
      NothingChosen(PredictionsIn(r), ExpectedIn(r), similar, h, tp, fp, fn);
    }
  }

  lemma NothingTallied(ps: seq<Prediction>, e: seq<Expected>, hits: seq<Hit>)
    requires |ps| == |hits| == 0
    ensures Tally(ps, e, hits) == ZERO
  {
  }

  lemma NothingLeft(used: set<nat>, n: nat)
    requires n == 0
    ensures Leftover(used, n) == ZERO
  {
  }

  lemma NothingCounted(ps: seq<Prediction>, e: seq<Expected>, hits: seq<Hit>, c: Counts)
    requires |ps| == |e| == |hits| == 0
    ensures Add(c, RowCounts(ps, e, hits)) == c
  {
    hide RowCounts;
    EmptyRow(ps, e, hits);
  }

  lemma EmptyRow(ps: seq<Prediction>, e: seq<Expected>, hits: seq<Hit>)
    requires |ps| == |e| == |hits| == 0
    ensures RowCounts(ps, e, hits) == ZERO
  {
    hide Tally, Used, Leftover;
    NothingTallied(ps, e, hits);
    NothingLeft(Used(hits), |e|);
  }

  lemma NothingChosen(ps: seq<Prediction>, e: seq<Expected>, similar: (string, string) -> bool, hits: seq<Hit>,
      tp: map<string, nat>, fp: map<string, nat>, fn: map<string, nat>)
    requires |ps| == |e| == |hits| == 0
    ensures IsGreedy(ps, e, similar, hits)
    ensures forall t :: IsRowTyped(ps, e, tp, fp, fn, tp, fp, fn, t)
  {
  }
}
