/** What the extraction counters are: sizes of sets of hits, and what exact predictions score. */
module Counters {
  import opened Actions
  import opened Extraction

  // ----- the counters of one row -----

  /** The predictions that were matched with an expected action, … */
  function Hits(hits: seq<Hit>): set<nat> {
    set k: nat | k < |hits| && !hits[k].Miss?
  }

  /** … with one whose summary is similar, … */
  function SimilarHits(hits: seq<Hit>): set<nat> {
    set k: nat | k < |hits| && hits[k].Full?
  }

  predicate IsOnTime(p: Prediction, expected: seq<Expected>, h: Hit) {
    h.Full? && h.at < |expected| && p.Predicted? && p.deadline == expected[h.at].deadline
  }

  /** … and whose deadline is the same. */
  function TimelyHits(ps: seq<Prediction>, expected: seq<Expected>, hits: seq<Hit>): set<nat>
    requires |ps| == |hits|
  {
    set k: nat | k < |hits| && IsOnTime(ps[k], expected, hits[k])
  }

  lemma AddOne(s: set<nat>, t: set<nat>, k: nat)
    requires k !in s && (t == s || t == s + {k})
    ensures |t| == |s| + if k in t then 1 else 0
  {
  }

  lemma LastHit(hits: seq<Hit>, k: nat)
    requires |hits| == k + 1
    ensures |Hits(hits)| == |Hits(hits[..k])| + if hits[k].Miss? then 0 else 1
  {
    var a := Hits(hits[..k]);
    assert Hits(hits) == if hits[k].Miss? then a else a + {k};
    AddOne(a, Hits(hits), k);
  }

  lemma LastSimilar(hits: seq<Hit>, k: nat)
    requires |hits| == k + 1
    ensures |SimilarHits(hits)| == |SimilarHits(hits[..k])| + if hits[k].Full? then 1 else 0
  {
    var a := SimilarHits(hits[..k]);
    assert SimilarHits(hits) == if hits[k].Full? then a + {k} else a;
    AddOne(a, SimilarHits(hits), k);
  }

  lemma LastTimely(ps: seq<Prediction>, expected: seq<Expected>, hits: seq<Hit>, k: nat)
    requires |ps| == |hits| == k + 1
    ensures |TimelyHits(ps, expected, hits)| ==
            |TimelyHits(ps[..k], expected, hits[..k])| + if IsOnTime(ps[k], expected, hits[k]) then 1 else 0
  {
    hide IsOnTime;
    var a := TimelyHits(ps[..k], expected, hits[..k]);
    assert TimelyHits(ps, expected, hits) == if IsOnTime(ps[k], expected, hits[k]) then a + {k} else a;
    AddOne(a, TimelyHits(ps, expected, hits), k);
  }

  lemma GainIs(p: Prediction, expected: seq<Expected>, h: Hit, c: Counts)
    ensures var d := Add(c, Gain(p, expected, h));
            && d.tpType == c.tpType + (if h.Miss? then 0 else 1)
            && d.tpSim == c.tpSim + (if h.Full? then 1 else 0)
            && d.tpDl == c.tpDl + if IsOnTime(p, expected, h) then 1 else 0
  {
  }

  lemma {:induction false} TallyIs(ps: seq<Prediction>, expected: seq<Expected>, hits: seq<Hit>)
    requires |ps| == |hits|
    ensures var c := Tally(ps, expected, hits);
            && c.tpType == |Hits(hits)| && c.tpSim == |SimilarHits(hits)|
            && c.tpDl == |TimelyHits(ps, expected, hits)|
  {
    if ps == [] {
      assert Hits(hits) == {} && SimilarHits(hits) == {} && TimelyHits(ps, expected, hits) == {};
    } else {
      hide Gain, Add, Hits, SimilarHits, TimelyHits, IsOnTime;
      var k := |ps| - 1;
      TallyIs(ps[..k], expected, hits[..k]);
      GainIs(ps[k], expected, hits[k], Tally(ps[..k], expected, hits[..k]));
      LastHit(hits, k);
      LastSimilar(hits, k);
      LastTimely(ps, expected, hits, k);
    }
  }

  /** A row's true positives are its matched predictions, those of them with a similar summary, and those
      of these with the same deadline; the other six counters follow from the sizes of the two lists. */
  lemma RowCountsAre(ps: seq<Prediction>, expected: seq<Expected>, similar: (string, string) -> bool, hits: seq<Hit>)
    requires IsGreedy(ps, expected, similar, hits)
    ensures |hits| == |ps|
    ensures var c := RowCounts(ps, expected, hits);
            && c.tpType == |Hits(hits)| && c.tpSim == |SimilarHits(hits)|
            && c.tpDl == |TimelyHits(ps, expected, hits)|
            && IsConserved(c, |ps|, |expected|)
  {
    hide IsConserved, Tally, Hits, SimilarHits, TimelyHits;
    TallyIs(ps, expected, hits);
    RowIsConserved(ps, expected, similar, hits);
  }

  // ----- echoed predictions -----

  ghost predicate IsReflexive(similar: (string, string) -> bool) {
    forall s: string :: similar(s, s)
  }

  /** The predictions repeat the types and summaries of the expected actions, one by one. */
  predicate IsEcho(ps: seq<Prediction>, expected: seq<Expected>) {
    && |ps| == |expected|
    && forall k: nat | k < |ps| ::
         ps[k].Predicted? && ps[k].action == Text(expected[k].action) && ps[k].summary == expected[k].summary
  }

  /** The first `n` hits match each prediction with the action it repeats. */
  predicate IsDiagonal(hits: seq<Hit>, n: nat) {
    n <= |hits| && forall k: nat | k < n :: hits[k] == Full(k)
  }

  function Numbers(n: nat): (s: set<nat>)
    ensures |s| == n && forall k: nat :: k in s <==> k < n
  {
    if n == 0 then {} else Numbers(n - 1) + {n - 1}
  }

  lemma {:induction false} DiagonalUses(hits: seq<Hit>, n: nat)
    requires IsDiagonal(hits, n) && n == |hits|
    ensures Used(hits) == Numbers(n)
  {
    if n > 0 { DiagonalUses(hits[..n - 1], n - 1); }
  }

  lemma EchoIsChosen(ps: seq<Prediction>, expected: seq<Expected>, similar: (string, string) -> bool, k: nat, h: Hit)
    requires IsEcho(ps, expected) && IsReflexive(similar) && k < |ps|
    requires IsChoice(ps[k], expected, Numbers(k), similar, h)
    ensures h == Full(k)
  {
    assert IsAlike(ps[k], expected, Numbers(k), k, similar);
    assert IsFree(ps[k], expected, Numbers(k), k);
  }

  lemma {:induction false} EchoIsDiagonal(ps: seq<Prediction>, expected: seq<Expected>,
      similar: (string, string) -> bool, hits: seq<Hit>, n: nat)
    requires IsEcho(ps, expected) && IsReflexive(similar) && n <= |ps| && IsGreedy(ps[..n], expected, similar, hits)
    ensures |hits| == n && IsDiagonal(hits, n)
  {
    if n > 0 {
      hide IsChoice, IsReflexive;
      assert ps[..n][..n - 1] == ps[..n - 1];
      EchoIsDiagonal(ps, expected, similar, hits[..n - 1], n - 1);
      DiagonalUses(hits[..n - 1], n - 1);
      EchoIsChosen(ps, expected, similar, n - 1, hits[n - 1]);
    }
  }

  /** The positions whose deadlines agree. */
  function Punctual(ps: seq<Prediction>, expected: seq<Expected>): set<nat> {
    set k: nat | k < |ps| && k < |expected| && ps[k].Predicted? && ps[k].deadline == expected[k].deadline
  }

  lemma DiagonalHits(ps: seq<Prediction>, expected: seq<Expected>, hits: seq<Hit>, n: nat)
    requires |ps| == |expected| == |hits| == n && IsDiagonal(hits, n)
    ensures Hits(hits) == SimilarHits(hits) == Numbers(n)
    ensures TimelyHits(ps, expected, hits) == Punctual(ps, expected)
  {
  }

  lemma PunctualAtMost(ps: seq<Prediction>, expected: seq<Expected>, c: Counts)
    requires |ps| == |expected| && IsConserved(c, |ps|, |expected|)
    requires c.tpType == c.tpSim == |expected| && c.tpDl == |Punctual(ps, expected)|
    ensures var n, m := |expected|, |Punctual(ps, expected)|;
            m <= n && c == Counts(n, 0, 0, n, 0, 0, m, n - m, n - m)
  {
    hide Punctual;
  }

  /** Repeated types and summaries are all found, whatever the repetitions among them, and of the deadlines
      those that agree. */
  lemma EchoedRow(ps: seq<Prediction>, expected: seq<Expected>, similar: (string, string) -> bool, hits: seq<Hit>)
    requires IsEcho(ps, expected) && IsReflexive(similar) && IsGreedy(ps, expected, similar, hits)
    ensures var n, m := |expected|, |Punctual(ps, expected)|;
            m <= n && RowCounts(ps, expected, hits) == Counts(n, 0, 0, n, 0, 0, m, n - m, n - m)
  {
    var n := |ps|;
    assert ps[..n] == ps;
    assert |expected| == n;
    hide *;
    EchoIsDiagonal(ps, expected, similar, hits, n);
    RowCountsAre(ps, expected, similar, hits);
    DiagonalHits(ps, expected, hits, n);
    PunctualAtMost(ps, expected, RowCounts(ps, expected, hits));
  }

  /** The predictions are the expected actions. */
  predicate IsExact(ps: seq<Prediction>, expected: seq<Expected>) {
    && |ps| == |expected|
    && forall k: nat | k < |ps| ::
         ps[k] == Predicted(Text(expected[k].action), expected[k].summary, expected[k].deadline)
  }

  lemma ExactRow(ps: seq<Prediction>, expected: seq<Expected>, similar: (string, string) -> bool, hits: seq<Hit>)
    requires IsExact(ps, expected) && IsReflexive(similar) && IsGreedy(ps, expected, similar, hits)
    ensures var n := |expected|; RowCounts(ps, expected, hits) == Counts(n, 0, 0, n, 0, 0, n, 0, 0)
  {
    hide RowCounts, IsGreedy, IsReflexive;
    EchoedRow(ps, expected, similar, hits);
    assert Punctual(ps, expected) == Numbers(|ps|);
  }

  // ----- no deadline in common -----

  /** No predicted deadline is an expected one. */
  predicate AreApart(ps: seq<Prediction>, expected: seq<Expected>) {
    forall i, j | 0 <= i < |ps| && 0 <= j < |expected| && ps[i].Predicted? :: ps[i].deadline != expected[j].deadline
  }

  lemma ApartRow(ps: seq<Prediction>, expected: seq<Expected>, similar: (string, string) -> bool, hits: seq<Hit>)
    requires AreApart(ps, expected) && IsGreedy(ps, expected, similar, hits)
    ensures RowCounts(ps, expected, hits).tpDl == 0
  {
    hide RowCounts, IsGreedy;
    RowCountsAre(ps, expected, similar, hits);
    assert TimelyHits(ps, expected, hits) == {};
  }

  // ----- a batch -----

  predicate AllExact(rows: seq<Row>) {
    forall i | 0 <= i < |rows| :: IsExact(PredictionsIn(rows[i]), ExpectedIn(rows[i]))
  }

  predicate AllApart(rows: seq<Row>) {
    forall i | 0 <= i < |rows| :: AreApart(PredictionsIn(rows[i]), ExpectedIn(rows[i]))
  }

  function Perfect(n: nat): Counts { Counts(n, 0, 0, n, 0, 0, n, 0, 0) }

  lemma AddPerfect(a: nat, b: nat)
    ensures Add(Perfect(a), Perfect(b)) == Perfect(a + b)
  {
  }

  /** Predictions equal to the expected actions in every row are all counted right at all three levels. */
  lemma {:induction false} ExactBatch(rows: seq<Row>, similar: (string, string) -> bool, hits: seq<seq<Hit>>)
    requires AllExact(rows) && IsReflexive(similar) && AllGreedy(rows, similar, hits)
    ensures BatchCounts(rows, hits) == Perfect(TotalExpected(rows))
  {
    hide IsReflexive, IsExact, AllGreedy, BatchCounts, Add, RowCounts, TotalExpected, Perfect;
    hide PredictionsIn, ExpectedIn;
    HitsPerRow(rows, similar, hits);
    if |rows| == 0 {
      EmptyBatch(rows, similar, hits);
      NothingIsPerfect();
    } else {
      var k := |rows| - 1;
      BatchStep(rows, similar, hits, k);
      ExactBatch(rows[..k], similar, hits[..k]);
      ExactRow(PredictionsIn(rows[k]), ExpectedIn(rows[k]), similar, hits[k]);
      TotalsStep(rows, k);
      PerfectIs(|ExpectedIn(rows[k])|);
      AddPerfect(TotalExpected(rows[..k]), |ExpectedIn(rows[k])|);
    }
  }

  lemma NothingIsPerfect()
    ensures ZERO == Perfect(0)
  {
  }

  lemma PerfectIs(n: nat)
    ensures Perfect(n) == Counts(n, 0, 0, n, 0, 0, n, 0, 0)
  {
  }

  /** With no deadline in common in any row, no deadline is counted right. */
  lemma {:induction false} ApartBatch(rows: seq<Row>, similar: (string, string) -> bool, hits: seq<seq<Hit>>)
    requires AllApart(rows) && AllGreedy(rows, similar, hits)
    ensures BatchCounts(rows, hits).tpDl == 0
  {
    hide AreApart, AllGreedy, BatchCounts, RowCounts, PredictionsIn, ExpectedIn, TotalExpected, TotalPredictions,
         TotalOverlap;
    HitsPerRow(rows, similar, hits);
    if |rows| == 0 {
      EmptyBatch(rows, similar, hits);
    } else {
      var k := |rows| - 1;
      BatchStep(rows, similar, hits, k);
      ApartBatch(rows[..k], similar, hits[..k]);
      ApartRow(PredictionsIn(rows[k]), ExpectedIn(rows[k]), similar, hits[k]);
    }
  }

  /** F1 is one exactly if something was to be found and there is no mistake. */
  lemma F1IsOneIff(tp: nat, fp: nat, fn: nat)
    ensures F1(tp, fp, fn) == 1.0 <==> tp > 0 && fp == 0 && fn == 0
  {
    hide F1;
    F1Closed(tp, fp, fn);
    if tp > 0 {
      var x, d := 2.0 * tp as real, (tp + fp + (tp + fn)) as real;
      assert (x / d) * d == x;
    }
  }

  /** `score_extraction` on predictions that are the expected actions answers 1.0 at all three levels, if
      there was anything to find. */
  lemma ExactScores(rows: seq<Row>, similar: (string, string) -> bool, hits: seq<seq<Hit>>, c: Counts)
    requires AllExact(rows) && IsReflexive(similar) && TotalExpected(rows) > 0
    requires AllGreedy(rows, similar, hits) && c == BatchCounts(rows, hits)
    ensures F1(c.tpType, c.fpType, c.fnType) == F1(c.tpSim, c.fpSim, c.fnSim) == F1(c.tpDl, c.fpDl, c.fnDl) == 1.0
  {
    hide *;
    ExactBatch(rows, similar, hits);
    PerfectIs(TotalExpected(rows));
    F1IsOneIff(TotalExpected(rows), 0, 0);
  }

  /** The predictions that count are the objects among them, each as often as it was given. */
  lemma {:induction false} ObjectsAre(predicted: seq<Prediction>, p: Prediction)
    ensures multiset(Objects(predicted))[p] == if p.Predicted? then multiset(predicted)[p] else 0
  {
    if predicted != [] {
      var k := |predicted| - 1;
      ObjectsAre(predicted[..k], p);
      assert predicted == predicted[..k] + [predicted[k]];
    }
  }
}
