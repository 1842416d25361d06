/** The cost-quality frontier, the verdict that reads only the frontier, and the model it recommends. */
module Pareto {
  import opened Actions
  import opened Timestamps

  datatype Point = Point(model: string, prompt: string, cost: real, quality: real, samples: int)

  const SAMPLE_SIZE_GATE := 15

  predicate Dominates(a: Point, b: Point) {
    a.cost <= b.cost && a.quality >= b.quality && (a.cost < b.cost || a.quality > b.quality)
  }

  predicate IsDominated(p: Point, points: seq<Point>) {
    exists i | 0 <= i < |points| :: Dominates(points[i], p)
  }

  function Undominated(points: seq<Point>, all: seq<Point>): (f: seq<Point>)
    ensures forall p :: p in f <==> p in points && !IsDominated(p, all)
  {
    if points == [] then []
    else
      var p, f := points[|points| - 1], Undominated(points[..|points| - 1], all);
      assert forall q :: q in points <==> q in points[..|points| - 1] || q == p;
      if IsDominated(p, all) then f else f + [p]
  }

  // ----- `_extract_pareto_points_for_task` -----

  datatype Score = Score(model: string, prompt: string, metric: string, role: string, value: real, samples: int)
  datatype Run = Run(task: string, model: string, cost: real, ok: bool)

  /** The metric that stands for a task's quality; other tasks have none. */
  function HeadlineMetric(task: string): Option<string> {
    if task == "coarse_class" || task == "sensitivity_class" || task == "fine_class" ||
       task == "reference_resolution" then Some("accuracy")
    else if task == "summary_short" || task == "draft_reply" then Some("subjective_overall")
    else if task == "action_extraction" then Some("f1_extraction_action_type")
    else None
  }

  /** The runs of one task and model that succeeded. */
  function OkRuns(runs: seq<Run>, task: string, model: string): seq<Run> {
    if runs == [] then []
    else
      var r, rest := runs[|runs| - 1], OkRuns(runs[..|runs| - 1], task, model);
      if r.ok && r.task == task && r.model == model then rest + [r] else rest
  }

  function TotalCost(runs: seq<Run>): real {
    if runs == [] then 0.0 else TotalCost(runs[..|runs| - 1]) + runs[|runs| - 1].cost
  }

  /** The price of a model for a task, which no score row enters. */
  function CostPer100(runs: seq<Run>, task: string, model: string): real {
    var ok := OkRuns(runs, task, model);
    if ok == [] then 0.0 else TotalCost(ok) / (|ok| as real) * 100.0
  }

  predicate IsHeadline(r: Score, metric: string) { r.metric == metric && r.role == "primary" }

  /** One point per primary headline row, in the order of the rows. */
  function PointsOf(task: string, rows: seq<Score>, runs: seq<Run>): seq<Point> {
    var metric := HeadlineMetric(task);
    if rows == [] || metric.None? then []
    else
      var r, rest := rows[|rows| - 1], PointsOf(task, rows[..|rows| - 1], runs);
      if IsHeadline(r, metric.value)
      then rest + [Point(r.model, r.prompt, CostPer100(runs, task, r.model), r.value, r.samples)] else rest
  }

  method ExtractParetoPoints(task: string, rows: seq<Score>, runs: seq<Run>) returns (points: seq<Point>)
    ensures points == PointsOf(task, rows, runs)
  {
    points := [];
    var metric := HeadlineMetric(task);
    if metric.None? { return; }
    for i := 0 to |rows|
      invariant points == PointsOf(task, rows[..i], runs)
    {
      assert rows[..i + 1][..i] == rows[..i];
      var r := rows[i];
      if r.metric == metric.value && r.role == "primary" {
        var mean := MeanCost(runs, task, r.model);
        points := points + [Point(r.model, r.prompt, mean * 100.0, r.value, r.samples)];
      }
    }
    assert rows[..|rows|] == rows;
  }

  method MeanCost(runs: seq<Run>, task: string, model: string) returns (mean: real)
    ensures mean * 100.0 == CostPer100(runs, task, model)
  {
    ghost var ok := [];
    var total, n := 0.0, 0;
    for i := 0 to |runs|
      invariant ok == OkRuns(runs[..i], task, model) && total == TotalCost(ok) && n == |ok|
    {
      assert runs[..i + 1][..i] == runs[..i];
      var r := runs[i];
      if r.task == task && r.model == model && r.ok {
        assert (ok + [r])[..|ok|] == ok;
        total, n, ok := total + r.cost, n + 1, ok + [r];
      }
    }
    assert runs[..|runs|] == runs;
    if n > 0 { return total / (n as real); }
    return 0.0;
  }

  /** A model has one price, whatever its prompt versions. */
  predicate OnePricePerModel(points: seq<Point>) {
    forall i, j | 0 <= i < |points| && 0 <= j < |points| && points[i].model == points[j].model ::
      points[i].cost == points[j].cost
  }

  lemma {:induction false} PricedByModel(task: string, rows: seq<Score>, runs: seq<Run>)
    ensures forall i | 0 <= i < |PointsOf(task, rows, runs)| ::
              var p := PointsOf(task, rows, runs)[i]; p.cost == CostPer100(runs, task, p.model)
  {
    if rows != [] { PricedByModel(task, rows[..|rows| - 1], runs); }
  }

  lemma ReportHasOnePrice(task: string, rows: seq<Score>, runs: seq<Run>)
    ensures OnePricePerModel(PointsOf(task, rows, runs))
  {
    var points := PointsOf(task, rows, runs);
    PricedByModel(task, rows, runs);
    forall i, j | 0 <= i < |points| && 0 <= j < |points| && points[i].model == points[j].model
      ensures points[i].cost == points[j].cost
    {
      assert points[i].cost == CostPer100(runs, task, points[i].model);
      assert points[j].cost == CostPer100(runs, task, points[j].model);
    }
  }

  // ----- every dominated point is dominated from the frontier -----

  function Dominators(p: Point, points: seq<Point>): set<nat> {
    set i: nat | i < |points| && Dominates(points[i], p)
  }

  lemma FewerDominators(p: Point, q: Point, points: seq<Point>, i: nat)
    requires i < |points| && points[i] == q && Dominates(q, p)
    ensures |Dominators(q, points)| < |Dominators(p, points)|
  {
    var mine, its := Dominators(p, points), Dominators(q, points);
    assert i in mine && i !in its;
    assert its <= mine - {i};
    Smaller(its, mine - {i});
  }

  lemma {:induction false} Smaller(a: set<nat>, b: set<nat>)
    requires a <= b
    ensures |a| <= |b|
  {
    if a != {} {
      var x :| x in a;
      Smaller(a - {x}, b - {x});
    }
  }

  /** By descent along domination, which loses a dominator at every step. */
  lemma {:induction false} DominatedFromTheFrontier(p: Point, points: seq<Point>) returns (f: Point)
    requires IsDominated(p, points)
    ensures f in points && !IsDominated(f, points) && Dominates(f, p)
    decreases |Dominators(p, points)|
  {
    var i: nat :| i < |points| && Dominates(points[i], p);
    f := points[i];
    if IsDominated(f, points) {
      FewerDominators(p, f, points, i);
      f := DominatedFromTheFrontier(points[i], points);
    }
  }

  // ----- `compute_pareto_frontier` -----

  predicate KeyAtMost(a: Point, b: Point) {
    a.cost < b.cost || (a.cost == b.cost &&
      (a.quality < b.quality || (a.quality == b.quality && !TextLess(b.model, a.model))))
  }

  predicate IsByKey(s: seq<Point>) {
    forall i | 0 < i < |s| :: KeyAtMost(s[i - 1], s[i])
  }

  /** Stable insertion: after the points whose key is not above. */
  method InsertByKey(s: seq<Point>, p: Point) returns (t: seq<Point>)
    requires IsByKey(s)
    ensures IsByKey(t) && multiset(t) == multiset(s) + multiset{p}
  {
    hide KeyAtMost;
    var at := |s|;
    while at > 0 && !KeyAtMost(s[at - 1], p)
      invariant 0 <= at <= |s| && (at < |s| ==> KeyAtMost(p, s[at]))
    {
      KeysAreTotal(s[at - 1], p);
      at := at - 1;
    }
    t := s[..at] + [p] + s[at..];
    assert s == s[..at] + s[at..];
    forall i | 0 < i < |t| ensures KeyAtMost(t[i - 1], t[i]) {
      if i < at { assert t[i - 1] == s[i - 1] && t[i] == s[i]; }
      if i > at + 1 { assert t[i - 1] == s[i - 2] && t[i] == s[i - 1]; }
    }
  }

  lemma KeysAreTotal(a: Point, b: Point)
    ensures KeyAtMost(a, b) || KeyAtMost(b, a)
  {
    if TextLess(a.model, b.model) { Asymmetric(b.model, a.model); }
  }

  /** The undominated points, ties kept, in key order. */
  method ComputeParetoFrontier(points: seq<Point>) returns (frontier: seq<Point>)
    ensures multiset(frontier) == multiset(Undominated(points, points))
    ensures forall p :: p in frontier <==> p in points && !IsDominated(p, points)
    ensures IsByKey(frontier)
  {
    var kept: seq<Point> := [];
    for i := 0 to |points|
      invariant kept == Undominated(points[..i], points)
    {
      var dominated := false;
      for j := 0 to |points|
        invariant dominated <==> exists k | 0 <= k < j :: Dominates(points[k], points[i])
      {
        if Dominates(points[j], points[i]) { dominated := true; }
      }
      assert points[..i + 1][..i] == points[..i];
      if !dominated { kept := kept + [points[i]]; }
    }
    assert points[..|points|] == points;
    frontier := [];
    for i := 0 to |kept|
      invariant IsByKey(frontier) && multiset(frontier) == multiset(kept[..i])
    {
      assert kept[..i + 1] == kept[..i] + [kept[i]];
      frontier := InsertByKey(frontier, kept[i]);
    }
    assert kept[..|kept|] == kept;
    forall p ensures p in frontier <==> p in kept { assert p in frontier <==> p in multiset(frontier); }
  }

  // ----- `compute_verdict` -----

  datatype Verdict = PromoteNeeded | DemoteValid | DemoteInvalid | HoldSteady | InsufficientData

  function DefaultThresholds(): map<string, real> {
    map["coarse_class" := 0.85, "sensitivity_class" := 0.90, "fine_class" := 0.75, "summary_short" := 3.5,
        "action_extraction" := 0.70, "draft_reply" := 3.5, "reference_resolution" := 0.90]
  }

  /** A point cheaper than `current`, of another model and with enough samples. */
  predicate IsAlternative(p: Point, model: string, current: Point) {
    p.cost < current.cost && p.samples >= SAMPLE_SIZE_GATE && p.model != model
  }

  predicate HasAlternative(points: seq<Point>, model: string, current: Point) {
    exists i | 0 <= i < |points| :: IsAlternative(points[i], model, current)
  }

  predicate HasMeeting(points: seq<Point>, model: string, current: Point, threshold: real) {
    exists i | 0 <= i < |points| :: IsAlternative(points[i], model, current) && points[i].quality >= threshold
  }

  function ComputeVerdict(task: string, model: string, frontier: seq<Point>, current: Point,
                          thresholds: Option<map<string, real>>): Verdict
  {
    var table := if thresholds.Some? then thresholds.value else DefaultThresholds();
    if current.samples < SAMPLE_SIZE_GATE then InsufficientData
    else if task !in table then HoldSteady
    else if current.quality < table[task] then PromoteNeeded
    else if HasMeeting(frontier, model, current, table[task]) then DemoteValid
    else if HasAlternative(frontier, model, current) then DemoteInvalid
    else HoldSteady
  }

  /** `frontier` holds the undominated points of `all` and nothing else. */
  predicate IsFrontier(frontier: seq<Point>, all: seq<Point>) {
    && (forall i | 0 <= i < |frontier| :: frontier[i] in all)
    && (forall i | 0 <= i < |all| && !IsDominated(all[i], all) :: all[i] in frontier)
  }

  /** No other point of the current model is cheaper, as when each model has one point. */
  predicate NoCheaperSibling(all: seq<Point>, current: Point) {
    forall i | 0 <= i < |all| && all[i].model == current.model :: all[i].cost >= current.cost
  }

  predicate IsEligible(all: seq<Point>) {
    forall i | 0 <= i < |all| :: all[i].samples >= SAMPLE_SIZE_GATE
  }

  /** A point that is at least as cheap and as good, from the frontier. */
  lemma BetterOnFrontier(frontier: seq<Point>, all: seq<Point>, i: nat) returns (k: nat)
    requires IsFrontier(frontier, all) && i < |all|
    ensures k < |frontier| && frontier[k].cost <= all[i].cost && frontier[k].quality >= all[i].quality
  {
    var p := all[i];
    if IsDominated(p, all) {
      p := DominatedFromTheFrontier(p, all);
      var j :| 0 <= j < |all| && all[j] == p;
      assert all[j] in frontier;
    } else {
      assert all[i] in frontier;
    }
    k :| 0 <= k < |frontier| && frontier[k] == p;
  }

  lemma AlternativeOnFrontier(frontier: seq<Point>, all: seq<Point>, current: Point, i: nat) returns (k: nat)
    requires IsFrontier(frontier, all) && IsEligible(all) && NoCheaperSibling(all, current)
    requires i < |all| && IsAlternative(all[i], current.model, current)
    ensures k < |frontier| && IsAlternative(frontier[k], current.model, current) &&
        frontier[k].quality >= all[i].quality
  {
    k := BetterOnFrontier(frontier, all, i);
    var j :| 0 <= j < |all| && all[j] == frontier[k];
    assert all[j].samples >= SAMPLE_SIZE_GATE;
  }

  lemma FrontierInAll(frontier: seq<Point>, all: seq<Point>, k: nat) returns (j: nat)
    requires IsFrontier(frontier, all) && k < |frontier|
    ensures j < |all| && all[j] == frontier[k]
  {
    assert frontier[k] in all;
    j :| 0 <= j < |all| && all[j] == frontier[k];
  }

  lemma AlternativesAgree(frontier: seq<Point>, all: seq<Point>, current: Point)
    requires IsFrontier(frontier, all) && IsEligible(all) && NoCheaperSibling(all, current)
    ensures HasAlternative(frontier, current.model, current) <==> HasAlternative(all, current.model, current)
  {
    if HasAlternative(all, current.model, current) {
      var i :| 0 <= i < |all| && IsAlternative(all[i], current.model, current);
      var k := AlternativeOnFrontier(frontier, all, current, i);
    }
    if HasAlternative(frontier, current.model, current) {
      var k :| 0 <= k < |frontier| && IsAlternative(frontier[k], current.model, current);
      var j := FrontierInAll(frontier, all, k);
    }
  }

  lemma MeetingsAgree(frontier: seq<Point>, all: seq<Point>, current: Point, threshold: real)
    requires IsFrontier(frontier, all) && IsEligible(all) && NoCheaperSibling(all, current)
    ensures HasMeeting(frontier, current.model, current, threshold) <==>
            HasMeeting(all, current.model, current, threshold)
  {
    if HasMeeting(all, current.model, current, threshold) {
      var i :| 0 <= i < |all| && IsAlternative(all[i], current.model, current) && all[i].quality >= threshold;
      var k := AlternativeOnFrontier(frontier, all, current, i);
    }
    if HasMeeting(frontier, current.model, current, threshold) {
      var k :| 0 <= k < |frontier| && IsAlternative(frontier[k], current.model, current) &&
               frontier[k].quality >= threshold;
      var j := FrontierInAll(frontier, all, k);
    }
  }

  /** Reading only the frontier loses nothing: the verdict is the one all eligible points give. */
  lemma FrontierDecides(task: string, frontier: seq<Point>, all: seq<Point>, current: Point,
                        thresholds: Option<map<string, real>>)
    requires IsFrontier(frontier, all) && IsEligible(all) && NoCheaperSibling(all, current)
    ensures ComputeVerdict(task, current.model, frontier, current, thresholds) ==
            ComputeVerdict(task, current.model, all, current, thresholds)
  {
    var table := if thresholds.Some? then thresholds.value else DefaultThresholds();
    AlternativesAgree(frontier, all, current);
    if task in table { MeetingsAgree(frontier, all, current, table[task]); }
  }

  /** Only a direct call can see another verdict, with two points of one model at different costs: the
      cheaper sibling pushes the other model off the frontier and is then passed over as the current
      model itself. */
  lemma SiblingHidesTheAlternative()
    ensures var current, sibling, other :=
              Point("a", "v1", 3.0, 0.9, 15), Point("a", "v2", 1.0, 1.0, 15), Point("b", "v1", 2.0, 0.9, 15);
            var all := [current, sibling, other];
            && IsFrontier([sibling], all) && IsEligible(all)
            && ComputeVerdict("coarse_class", "a", [sibling], current, None) == HoldSteady
            && ComputeVerdict("coarse_class", "a", all, current, None) == DemoteValid
  {
    var current, sibling, other :=
      Point("a", "v1", 3.0, 0.9, 15), Point("a", "v2", 1.0, 1.0, 15), Point("b", "v1", 2.0, 0.9, 15);
    var all := [current, sibling, other];
    assert Dominates(all[1], current) && Dominates(all[1], other) && !IsDominated(sibling, all);
    assert IsAlternative(all[2], "a", current) && all[2].quality >= 0.85;
    assert "coarse_class" in DefaultThresholds() && DefaultThresholds()["coarse_class"] == 0.85;
  }

  // ----- the recommended model -----

  /** The first cheapest point of the frontier that meets the threshold and is below `ceiling`. */
  method Cheapest(frontier: seq<Point>, threshold: real, ceiling: Option<real>) returns (best: Option<Point>)
    ensures best.Some? ==> best.value in frontier && Qualifies(best.value, threshold, ceiling)
    ensures forall i | 0 <= i < |frontier| && Qualifies(frontier[i], threshold, ceiling) ::
              best.Some? && best.value.cost <= frontier[i].cost
  {
    best := None;
    for i := 0 to |frontier|
      invariant best.Some? ==> best.value in frontier && Qualifies(best.value, threshold, ceiling)
      invariant forall k | 0 <= k < i && Qualifies(frontier[k], threshold, ceiling) ::
                  best.Some? && best.value.cost <= frontier[k].cost
    {
      if Qualifies(frontier[i], threshold, ceiling) && (best.None? || frontier[i].cost < best.value.cost) {
        best := Some(frontier[i]);
      }
    }
  }

  predicate Qualifies(p: Point, threshold: real, ceiling: Option<real>) {
    p.quality >= threshold && (ceiling.Some? ==> p.cost < ceiling.value)
  }

  /** The points with enough samples. */
  function Eligible(points: seq<Point>): (e: seq<Point>)
    ensures IsEligible(e)
    ensures forall p :: p in e <==> p in points && p.samples >= SAMPLE_SIZE_GATE
  {
    if points == [] then []
    else
      var p, e := points[|points| - 1], Eligible(points[..|points| - 1]);
      assert forall q :: q in points <==> q in points[..|points| - 1] || q == p;
      if p.samples >= SAMPLE_SIZE_GATE then e + [p] else e
  }

  /** The target is an eligible, undominated point that meets the threshold, and no eligible point
      that meets it is cheaper. */
  predicate IsCheapestMeeting(target: Point, all: seq<Point>, threshold: real) {
    && target in all && !IsDominated(target, all) && target.quality >= threshold
    && forall i | 0 <= i < |all| && all[i].quality >= threshold :: target.cost <= all[i].cost
  }

  lemma TargetIsCheapest(frontier: seq<Point>, all: seq<Point>, threshold: real, ceiling: Option<real>,
        target: Option<Point>)
    requires IsFrontier(frontier, all) && (forall p :: p in frontier ==> p in all && !IsDominated(p, all))
    requires target.Some? ==> target.value in frontier && Qualifies(target.value, threshold, ceiling)
    requires forall i | 0 <= i < |frontier| && Qualifies(frontier[i], threshold, ceiling) ::
               target.Some? && target.value.cost <= frontier[i].cost
    ensures target.Some? ==> IsCheapestMeeting(target.value, all, threshold)
    ensures target.None? && ceiling.None? ==> forall i | 0 <= i < |all| :: all[i].quality < threshold
  {
    forall i | 0 <= i < |all| && all[i].quality >= threshold
      ensures target.Some? ==> target.value.cost <= all[i].cost
      ensures ceiling.None? ==> target.Some?
    {
      var k := BetterOnFrontier(frontier, all, i);
      if ceiling.None? || frontier[k].cost < ceiling.value { assert Qualifies(frontier[k], threshold, ceiling); }
    }
  }

  /** Points of one price per model leave the current one no cheaper sibling. */
  lemma OnePriceNoSibling(points: seq<Point>, k: nat)
    requires OnePricePerModel(points) && k < |points|
    ensures NoCheaperSibling(Eligible(points), points[k])
  {
    var all := Eligible(points);
    forall i | 0 <= i < |all| && all[i].model == points[k].model ensures all[i].cost >= points[k].cost {
      assert all[i] in points;
      var j :| 0 <= j < |points| && points[j] == all[i];
    }
  }

  /** For every current point of every report, the verdict read off the frontier is the one that all
      eligible points give. */
  lemma ReportVerdictIsOfAllPoints(
      task: string, rows: seq<Score>, runs: seq<Run>, k: nat, frontier: seq<Point>,
      thresholds: Option<map<string, real>>)
    requires k < |PointsOf(task, rows, runs)| && IsFrontier(frontier, Eligible(PointsOf(task, rows, runs)))
    ensures var points := PointsOf(task, rows, runs);
            ComputeVerdict(task, points[k].model, frontier, points[k], thresholds) ==
            ComputeVerdict(task, points[k].model, Eligible(points), points[k], thresholds)
  {
    var points := PointsOf(task, rows, runs);
    ReportHasOnePrice(task, rows, runs);
    OnePriceNoSibling(points, k);
    FrontierDecides(task, frontier, Eligible(points), points[k], thresholds);
  }

  /** A suggested target is another, cheaper model on DEMOTE-valid and, there and on PROMOTE-needed, the
      cheapest eligible point that meets the threshold; it is missing only where none does. */
  predicate IsSuggestion(
      task: string, all: seq<Point>, current: Point, thresholds: map<string, real>, verdict: Verdict,
      target: Option<Point>)
  {
    && verdict == ComputeVerdict(task, current.model, all, current, Some(thresholds))
    && (target.Some? ==>
          && (verdict.DemoteValid? || verdict.PromoteNeeded?)
          && task in thresholds && IsCheapestMeeting(target.value, all, thresholds[task]))
    && (verdict.DemoteValid? ==>
          target.Some? && target.value.model != current.model && target.value.cost < current.cost)
    && (verdict.PromoteNeeded? && target.None? ==>
          task in thresholds && forall i | 0 <= i < |all| :: all[i].quality < thresholds[task])
  }

  /** What the report suggests for one current point. */
  method Recommend(task: string, points: seq<Point>, k: nat, thresholds: map<string, real>)
    returns (verdict: Verdict, target: Option<Point>)
    requires OnePricePerModel(points) && k < |points|
    ensures IsSuggestion(task, Eligible(points), points[k], thresholds, verdict, target)
  {
    var all, current := Eligible(points), points[k];
    var frontier := ComputeParetoFrontier(all);
    assert IsFrontier(frontier, all);
    OnePriceNoSibling(points, k);
    FrontierDecides(task, frontier, all, current, Some(thresholds));
    verdict, target := ComputeVerdict(task, current.model, frontier, current, Some(thresholds)), None;
    if verdict.DemoteValid? {
      target := Cheapest(frontier, thresholds[task], Some(current.cost));
      TargetIsCheapest(frontier, all, thresholds[task], Some(current.cost), target);
      var i :| 0 <= i < |frontier| && IsAlternative(frontier[i], current.model, current) &&
               frontier[i].quality >= thresholds[task];
      assert Qualifies(frontier[i], thresholds[task], Some(current.cost));
      TargetIsElsewhere(points, k, target.value);
    } else if verdict.PromoteNeeded? {
      target := Cheapest(frontier, thresholds[task], None);
      TargetIsCheapest(frontier, all, thresholds[task], None, target);
    }
  }

  lemma TargetIsElsewhere(points: seq<Point>, k: nat, target: Point)
    requires OnePricePerModel(points) && k < |points| && target in points && target.cost < points[k].cost
    ensures target.model != points[k].model
  {
    var j :| 0 <= j < |points| && points[j] == target;
  }

  datatype Suggestion = Suggestion(current: Point, verdict: Verdict, target: Option<Point>)

  /** `_render_demote_promote_section` for one task and cohort: a suggestion for each of its points,
      none of them resting on an assumption about the rows. */
  method Suggest(task: string, rows: seq<Score>, runs: seq<Run>, thresholds: map<string, real>)
    returns (suggestions: seq<Suggestion>)
    ensures var points := PointsOf(task, rows, runs);
            && |suggestions| == |points|
            && forall i | 0 <= i < |points| ::
                 && suggestions[i].current == points[i]
                 && IsSuggestion(task, Eligible(points), points[i], thresholds,
                                 suggestions[i].verdict, suggestions[i].target)
  {
    var points := ExtractParetoPoints(task, rows, runs);
    ReportHasOnePrice(task, rows, runs);
    suggestions := [];
    for i := 0 to |points|
      invariant |suggestions| == i
      invariant forall j | 0 <= j < i ::
                  && suggestions[j].current == points[j]
                  && IsSuggestion(task, Eligible(points), points[j], thresholds,
                                  suggestions[j].verdict, suggestions[j].target)
    {
      var verdict, target := Recommend(task, points, i, thresholds);
      suggestions := suggestions + [Suggestion(points[i], verdict, target)];
    }
  }
}
