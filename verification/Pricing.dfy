/** What the price of a model is, and when each verdict is given, said of the rows and points themselves. */
module Pricing {
  import opened Actions
  import opened Pareto

  // ----- the price is a mean -----

  predicate IsPriced(r: Run, task: string, model: string) { r.ok && r.task == task && r.model == model }

  /** The runs that count, each as often as it is there. */
  lemma {:induction false} OkRunsAre(runs: seq<Run>, task: string, model: string, r: Run)
    ensures multiset(OkRuns(runs, task, model))[r] == if IsPriced(r, task, model) then multiset(runs)[r] else 0
  {
    if runs != [] {
      OkRunsAre(runs[..|runs| - 1], task, model, r);
      assert runs == runs[..|runs| - 1] + [runs[|runs| - 1]];
    }
  }

  lemma {:induction false} OkRunsConcat(a: seq<Run>, b: seq<Run>, task: string, model: string)
    ensures OkRuns(a + b, task, model) == OkRuns(a, task, model) + OkRuns(b, task, model)
  {
    if b == [] {
      assert a + b == a;
    } else {
      assert (a + b)[..|a + b| - 1] == a + b[..|b| - 1];
      OkRunsConcat(a, b[..|b| - 1], task, model);
    }
  }

  lemma {:induction false} CostConcat(a: seq<Run>, b: seq<Run>)
    ensures TotalCost(a + b) == TotalCost(a) + TotalCost(b)
  {
    if b == [] {
      assert a + b == a;
    } else {
      assert (a + b)[..|a + b| - 1] == a + b[..|b| - 1];
      CostConcat(a, b[..|b| - 1]);
    }
  }

  /** Failed runs and those of other tasks and models do not change the price, wherever they stand. */
  lemma OthersDoNotCount(a: seq<Run>, r: Run, b: seq<Run>, task: string, model: string)
    requires !IsPriced(r, task, model)
    ensures CostPer100(a + [r] + b, task, model) == CostPer100(a + b, task, model)
  {
    OkRunsConcat(a + [r], b, task, model);
    OkRunsConcat(a, [r], task, model);
    OkRunsConcat(a, b, task, model);
    assert OkRuns([r], task, model) == OkRuns([], task, model) == [];
  }

  lemma Quotient(total: real, n: real)
    requires n > 0.0
    ensures (total / n * 100.0) * n == total * 100.0
  {
    var x := total / n;
    assert x * n == total;
    assert (x * 100.0) * n == (x * n) * 100.0;
  }

  /** The price times the number of runs is a hundred times what they cost together. */
  lemma PriceTimesRuns(runs: seq<Run>, task: string, model: string)
    ensures var ok := OkRuns(runs, task, model);
            CostPer100(runs, task, model) * |ok| as real == TotalCost(ok) * 100.0
  {
    var ok := OkRuns(runs, task, model);
    if ok != [] { Quotient(TotalCost(ok), |ok| as real); }
  }

  lemma OneMoreOk(a: seq<Run>, r: Run, b: seq<Run>, task: string, model: string) returns (x: seq<Run>, y: seq<Run>)
    requires IsPriced(r, task, model)
    ensures OkRuns(a + [r] + b, task, model) == x + [r] + y && OkRuns(a + b, task, model) == x + y
  {
    x, y := OkRuns(a, task, model), OkRuns(b, task, model);
    OkRunsConcat(a + [r], b, task, model);
    OkRunsConcat(a, [r], task, model);
    OkRunsConcat(a, b, task, model);
    assert [r][..0] == [];
    assert OkRuns([r], task, model) == [r];
  }

  lemma OneMoreCost(x: seq<Run>, r: Run, y: seq<Run>)
    ensures TotalCost(x + [r] + y) == TotalCost(x + y) + r.cost
  {
    CostConcat(x + [r], y);
    CostConcat(x, [r]);
    CostConcat(x, y);
    assert [r][..0] == [];
    assert TotalCost([r]) == r.cost;
  }

  /** One more run moves the price to the new mean. */
  lemma OneMoreRun(a: seq<Run>, r: Run, b: seq<Run>, task: string, model: string)
    requires IsPriced(r, task, model)
    ensures var n := |OkRuns(a + b, task, model)| as real;
            CostPer100(a + [r] + b, task, model) * (n + 1.0) ==
            CostPer100(a + b, task, model) * n + 100.0 * r.cost
  {
    hide CostPer100, OkRuns, TotalCost, IsPriced;
    var x, y := OneMoreOk(a, r, b, task, model);
    OneMoreCost(x, r, y);
    PriceTimesRuns(a + [r] + b, task, model);
    PriceTimesRuns(a + b, task, model);
    assert |x + [r] + y| == |x + y| + 1;
  }

  lemma {:induction false} CostBetween(runs: seq<Run>, lo: real, hi: real)
    requires forall i | 0 <= i < |runs| :: lo <= runs[i].cost <= hi
    ensures lo * |runs| as real <= TotalCost(runs) <= hi * |runs| as real
  {
    if runs != [] { CostBetween(runs[..|runs| - 1], lo, hi); }
  }

  lemma Between(lo: real, x: real, hi: real, n: real)
    requires n > 0.0 && lo * n <= x <= hi * n
    ensures 100.0 * lo <= x / n * 100.0 <= 100.0 * hi
  {
    var y := x / n;
    assert y * n == x;
    assert (y - lo) * n >= 0.0 && (hi - y) * n >= 0.0;
    assert y - lo >= 0.0 && hi - y >= 0.0;
  }

  lemma OkIsPriced(runs: seq<Run>, task: string, model: string, r: Run)
    ensures r in OkRuns(runs, task, model) <==> r in runs && IsPriced(r, task, model)
  {
    OkRunsAre(runs, task, model, r);
    assert r in OkRuns(runs, task, model) <==> r in multiset(OkRuns(runs, task, model));
    assert r in runs <==> r in multiset(runs);
  }

  /** It is no less than the cheapest of its runs and no more than the dearest, per hundred; so runs of one
      cost are priced at a hundred times that. */
  lemma PriceIsBetween(runs: seq<Run>, r: Run, task: string, model: string, lo: real, hi: real)
    requires r in runs && IsPriced(r, task, model)
    requires forall r | r in runs && IsPriced(r, task, model) :: lo <= r.cost <= hi
    ensures 100.0 * lo <= CostPer100(runs, task, model) <= 100.0 * hi
  {
    hide IsPriced, OkRuns, TotalCost;
    var ok := OkRuns(runs, task, model);
    OkIsPriced(runs, task, model, r);
    forall i | 0 <= i < |ok| ensures lo <= ok[i].cost <= hi { OkIsPriced(runs, task, model, ok[i]); }
    CostBetween(ok, lo, hi);
    Between(lo, TotalCost(ok), hi, |ok| as real);
  }

  /** And zero without runs that count. */
  lemma Unpriced(runs: seq<Run>, task: string, model: string)
    requires forall r | r in runs :: !IsPriced(r, task, model)
    ensures CostPer100(runs, task, model) == 0.0
  {
    var ok := OkRuns(runs, task, model);
    if ok != [] { OkIsPriced(runs, task, model, ok[0]); }
  }

  // ----- the points -----

  /** The metric each task is judged by. */
  predicate IsJudgedBy(task: string, metric: string) {
    || (task in ["coarse_class", "sensitivity_class", "fine_class", "reference_resolution"] && metric == "accuracy")
    || (task in ["summary_short", "draft_reply"] && metric == "subjective_overall")
    || (task == "action_extraction" && metric == "f1_extraction_action_type")
  }

  /** The points of rows are the points of each in order, … */
  lemma {:induction false} PointsConcat(task: string, a: seq<Score>, b: seq<Score>, runs: seq<Run>)
    ensures PointsOf(task, a + b, runs) == PointsOf(task, a, runs) + PointsOf(task, b, runs)
  {
    if b == [] {
      assert a + b == a;
    } else {
      assert (a + b)[..|a + b| - 1] == a + b[..|b| - 1];
      PointsConcat(task, a, b[..|b| - 1], runs);
    }
  }

  /** … and a row has one exactly if it is the primary one of the task's metric. */
  lemma OnePoint(task: string, r: Score, runs: seq<Run>)
    ensures PointsOf(task, [r], runs) ==
            if r.role == "primary" && IsJudgedBy(task, r.metric)
            then [Point(r.model, r.prompt, CostPer100(runs, task, r.model), r.value, r.samples)] else []
  {
    assert [r][..0] == [];
    MetricIs(task, r.metric);
  }

  lemma MetricIs(task: string, metric: string)
    ensures HeadlineMetric(task) == Some(metric) <==> IsJudgedBy(task, metric)
  {
  }

  // ----- the verdicts -----

  /** A point of another model, cheaper than the current one and measured on fifteen samples. */
  predicate IsRival(p: Point, current: Point) {
    p.model != current.model && p.cost < current.cost && p.samples >= 15
  }

  predicate HasRival(points: seq<Point>, current: Point) {
    exists i | 0 <= i < |points| :: IsRival(points[i], current)
  }

  predicate HasGoodRival(points: seq<Point>, current: Point, threshold: real) {
    exists i | 0 <= i < |points| :: IsRival(points[i], current) && points[i].quality >= threshold
  }

  predicate IsMeasured(current: Point, table: map<string, real>, task: string) {
    current.samples >= 15 && task in table
  }

  /** Each verdict, exactly where it belongs: too few samples; below the threshold; above it with a cheaper
      rival that meets it too; with cheaper rivals, none of which does; and otherwise hold. */
  lemma VerdictIs(task: string, points: seq<Point>, current: Point, table: map<string, real>)
    ensures var v := ComputeVerdict(task, current.model, points, current, Some(table));
            && (v.InsufficientData? <==> current.samples < 15)
            && (v.PromoteNeeded? <==> IsMeasured(current, table, task) && current.quality < table[task])
            && (v.DemoteValid? <==> (&& IsMeasured(current, table, task) && current.quality >= table[task]
                                     && HasGoodRival(points, current, table[task])))
            && (v.DemoteInvalid? <==> (&& IsMeasured(current, table, task) && current.quality >= table[task]
                                       && HasRival(points, current)
                                       && !HasGoodRival(points, current, table[task])))
            && (v.HoldSteady? <==> (&& current.samples >= 15
                                    && (task in table ==> && current.quality >= table[task]
                                                          && !HasRival(points, current))))
  {
    forall i | 0 <= i < |points|
      ensures IsAlternative(points[i], current.model, current) <==> IsRival(points[i], current)
    {
    }
    hide IsAlternative, IsRival;
    assert HasAlternative(points, current.model, current) <==> HasRival(points, current);
    if task in table {
      assert HasMeeting(points, current.model, current, table[task]) <==> HasGoodRival(points, current, table[task]);
      assert HasGoodRival(points, current, table[task]) ==> HasRival(points, current);
    }
  }

  /** Without thresholds of its own a call uses these. */
  lemma DefaultsAre(task: string, points: seq<Point>, current: Point)
    ensures var table := map["coarse_class" := 0.85, "sensitivity_class" := 0.90, "fine_class" := 0.75,
                             "summary_short" := 3.5, "action_extraction" := 0.70, "draft_reply" := 3.5,
                             "reference_resolution" := 0.90];
            ComputeVerdict(task, current.model, points, current, None) ==
            ComputeVerdict(task, current.model, points, current, Some(table))
  {
  }
}
