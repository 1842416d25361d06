/** The sends that Graph is asked for on a day, whatever becomes of their rows. The check counts verdicts,
    so a send costs nothing for as long as its verdict is missing, and from when its stamp is gone. */
module SendCalls {
  import opened Actions
  import opened Timestamps
  import opened Tables
  import opened Queue
  import opened Ownership
  import opened Dispatches
  import opened SendCap

  predicate CalledOn(s: Dispatch, day: int) { IsSendFamily(s.spec.action) && Midnight(s.at) == day }

  function Calls(ds: seq<Dispatch>, day: int): nat {
    if ds == [] then 0 else Calls(ds[..|ds| - 1], day) + if CalledOn(ds[|ds| - 1], day) then 1 else 0
  }

  /** A drainer that has its row's verdict still to write. */
  predicate Owes(x: Drainer) {
    x.Working? && !x.job.late && (x.stage.Stamping? || x.stage.Marking? || x.stage.Failing? || x.stage.Recovering?)
  }

  predicate IsOwed(xs: seq<Drainer>, id: nat) {
    exists d | 0 <= d < |xs| :: Owes(xs[d]) && xs[d].job.id == id
  }

  /** The send is counted on the day, or is about to get its verdict. */
  predicate IsMinded(s: Dispatch, rows: seq<Row>, xs: seq<Drainer>, day: int) {
    IsOwed(xs, s.id) || (s.id < |rows| && Counts(rows[s.id], day))
  }

  predicate IsLost(s: Dispatch, rows: seq<Row>, xs: seq<Drainer>, day: int) {
    CalledOn(s, day) && !IsMinded(s, rows, xs, day)
  }

  function Lost(ds: seq<Dispatch>, rows: seq<Row>, xs: seq<Drainer>, day: int): nat {
    if ds == [] then 0
    else Lost(ds[..|ds| - 1], rows, xs, day) + if IsLost(ds[|ds| - 1], rows, xs, day) then 1 else 0
  }

  /** A drainer that has passed the check and not called yet. */
  predicate IsBound(x: Drainer, day: int) {
    x.Working? && IsSendFamily(x.job.spec.action) && x.job.since <= day && (x.stage.Recording? || x.stage.Dispatching?)
  }

  function Bound(xs: seq<Drainer>, day: int): nat {
    if xs == [] then 0 else Bound(xs[..|xs| - 1], day) + if IsBound(xs[|xs| - 1], day) then 1 else 0
  }

  function Owing(xs: seq<Drainer>): nat {
    if xs == [] then 0 else Owing(xs[..|xs| - 1]) + if Owes(xs[|xs| - 1]) then 1 else 0
  }

  // ----- counting -----

  lemma {:induction false} DrainerUpdate(xs: seq<Drainer>, d: nat, x: Drainer, day: int)
    requires d < |xs|
    ensures Bound(xs[d := x], day) + (if IsBound(xs[d], day) then 1 else 0) ==
            Bound(xs, day) + (if IsBound(x, day) then 1 else 0)
    ensures Owing(xs[d := x]) + (if Owes(xs[d]) then 1 else 0) == Owing(xs) + (if Owes(x) then 1 else 0)
  {
    var n := |xs| - 1;
    if d < n {
      assert xs[d := x][..n] == xs[..n][d := x];
      DrainerUpdate(xs[..n], d, x, day);
    } else {
      assert xs[d := x][..n] == xs[..n];
    }
  }

  lemma {:induction false} EachOnce(xs: seq<Drainer>, day: int)
    ensures Bound(xs, day) + Owing(xs) <= |xs|
  {
    if xs != [] { EachOnce(xs[..|xs| - 1], day); }
  }

  /** Some send of the day under this id ceases to be minded. */
  predicate Drops(ds: seq<Dispatch>, rows: seq<Row>, xs: seq<Drainer>, rows': seq<Row>, xs': seq<Drainer>, id: nat,
      day: int)
  {
    exists i | 0 <= i < |ds| ::
      ds[i].id == id && CalledOn(ds[i], day) && IsMinded(ds[i], rows, xs, day) && !IsMinded(ds[i], rows', xs', day)
  }

  /** If at most the sends of one row cease to be minded, one more is lost, for each row is sent once. */
  lemma {:induction false} LostStep(ds: seq<Dispatch>, rows: seq<Row>, xs: seq<Drainer>, rows': seq<Row>,
      xs': seq<Drainer>, id: nat, day: int)
    requires SentOnce(ds)
    requires forall i | 0 <= i < |ds| && ds[i].id != id ::
               IsMinded(ds[i], rows, xs, day) ==> IsMinded(ds[i], rows', xs', day)
    ensures Lost(ds, rows', xs', day) <=
            Lost(ds, rows, xs, day) + if Drops(ds, rows, xs, rows', xs', id, day) then 1 else 0
    ensures !WasSent(ds, id) ==> Lost(ds, rows', xs', day) <= Lost(ds, rows, xs, day)
  {
    hide IsMinded;
    if ds != [] {
      var n := |ds| - 1;
      LostStep(ds[..n], rows, xs, rows', xs', id, day);
      assert WasSent(ds, ds[n].id);
      if ds[n].id == id {
        assert forall i | 0 <= i < n :: ds[..n][i].id != id;
        assert IsMinded(ds[n], rows, xs, day) && !IsMinded(ds[n], rows', xs', day) && CalledOn(ds[n], day) ==>
            Drops(ds, rows, xs, rows', xs', id, day);
      } else if Drops(ds[..n], rows, xs, rows', xs', id, day) {
        var i :| 0 <= i < n && ds[..n][i].id == id && CalledOn(ds[..n][i], day) &&
                 IsMinded(ds[..n][i], rows, xs, day) && !IsMinded(ds[..n][i], rows', xs', day);
        assert ds[i].id == id;
      }
    }
  }

  lemma Blanked(ds: seq<Dispatch>, rows: seq<Row>, xs: seq<Drainer>, s: Dispatch, day: int)
    requires s.id < |rows| && forall i | 0 <= i < |ds| :: ds[i].id != s.id
    ensures forall i | 0 <= i < |ds| :: IsMinded(ds[i], rows[s.id := rows[s.id].(terminalAt := None)], xs, day) ==
                                        IsMinded(ds[i], rows, xs, day)
  {
  }

  lemma Dismissed(ds: seq<Dispatch>, rows: seq<Row>, xs: seq<Drainer>, d: nat, day: int)
    requires d < |xs| && Owes(xs[d]) && forall i | 0 <= i < |ds| :: ds[i].id != xs[d].job.id
    ensures forall i | 0 <= i < |ds| :: IsMinded(ds[i], rows, xs, day) ==> IsMinded(ds[i], rows, xs[d := Idle], day)
  {
    forall i | 0 <= i < |ds| && IsOwed(xs, ds[i].id) ensures IsOwed(xs[d := Idle], ds[i].id) {
      var e :| 0 <= e < |xs| && Owes(xs[e]) && xs[e].job.id == ds[i].id;
      assert xs[d := Idle][e] == xs[e];
    }
  }

  /** Every send of the day that is not lost is a row the check counts, or is in the hands of a drainer. */
  lemma {:induction false} CheckCountsCalls(ds: seq<Dispatch>, rows: seq<Row>, xs: seq<Drainer>, day: int,
      midnight: int)
    requires SentOnce(ds) && IsMidnight(day) && IsMidnight(midnight) && midnight <= day
    ensures Calls(ds, day) <= Lost(ds, rows, xs, day) + BudgetConsumed(rows, midnight) + Owing(xs)
    decreases |ds|, 1
  {
    hide IsMinded, IsMidnight;
    if ds != [] {
      var n := |ds| - 1;
      var s := ds[n];
      if CalledOn(s, day) && IsMinded(s, rows, xs, day) {
        CallIsCounted(ds, rows, xs, day, midnight);
      } else {
        CheckCountsCalls(ds[..n], rows, xs, day, midnight);
      }
    }
  }

  lemma {:induction false} CallIsCounted(ds: seq<Dispatch>, rows: seq<Row>, xs: seq<Drainer>, day: int, midnight: int)
    requires SentOnce(ds) && IsMidnight(day) && IsMidnight(midnight) && midnight <= day && ds != []
    requires CalledOn(ds[|ds| - 1], day) && IsMinded(ds[|ds| - 1], rows, xs, day)
    ensures Calls(ds, day) <= Lost(ds, rows, xs, day) + BudgetConsumed(rows, midnight) + Owing(xs)
    decreases |ds|, 0
  {
    var n := |ds| - 1;
    var s := ds[n];
    assert forall i | 0 <= i < n :: ds[..n][i].id != s.id;
    if IsOwed(xs, s.id) {
      var d :| 0 <= d < |xs| && Owes(xs[d]) && xs[d].job.id == s.id;
      DrainerUpdate(xs, d, Idle, day);
      Dismissed(ds[..n], rows, xs, d, day);
      LostStep(ds[..n], rows, xs, rows, xs[d := Idle], s.id, day);
      CheckCountsCalls(ds[..n], rows, xs[d := Idle], day, midnight);
    } else {
      var blank := rows[s.id].(terminalAt := None);
      MidnightIsWhole(day);
      MidnightIsWhole(midnight);
      BudgetUpdate(rows, s.id, blank, midnight);
      Blanked(ds[..n], rows, xs, s, day);
      LostStep(ds[..n], rows, xs, rows[s.id := blank], xs, s.id, day);
      CheckCountsCalls(ds[..n], rows[s.id := blank], xs, day, midnight);
    }
  }

  // ----- one step -----

  /** A row that has been sent neither waits for its window nor was cancelled. */
  predicate IsReached(rows: seq<Row>, s: Dispatch) {
    && s.id < |rows| && rows[s.id].spec == s.spec
    && !rows[s.id].status.CoolingOff? && !rows[s.id].status.Cancelled?
  }

  ghost predicate AllReached(q: Queue) { forall i | 0 <= i < |q.dispatches| :: IsReached(q.rows, q.dispatches[i]) }

  /** A send of the day ceases to be minded in the step. */
  predicate Loses(q: Queue, t: Queue, day: int) {
    exists i | 0 <= i < |q.dispatches| ::
      && CalledOn(q.dispatches[i], day) && IsMinded(q.dispatches[i], q.rows, q.drainers, day)
      && !IsMinded(q.dispatches[i], t.rows, t.drainers, day)
  }

  lemma StepReaches(q: Queue, grants: seq<Grant>, e: Event)
    requires Enabled(q, e) && Known(q) && AllReached(q)
    ensures AllReached(Step(q, grants, e))
  {
    var t := Step(q, grants, e);
    if e.Drain? {
      var x := q.drainers[e.d];
      assert Ready(q.rows, x);
      DrainSteady(q, grants, x, e.choice);
      DrainReaches(q, grants, e.d, e.choice);
    } else {
      OthersSpare(q, grants, e);
      OthersNeverApply(q, grants, e);
      hide Step;
      forall i | 0 <= i < |t.dispatches| ensures IsReached(t.rows, t.dispatches[i]) {
        assert IsReached(q.rows, q.dispatches[i]);
      }
    }
  }

  lemma DrainReaches(q: Queue, grants: seq<Grant>, d: nat, c: Choice)
    requires CanDrain(q, d, c) && Known(q) && AllReached(q)
    ensures AllReached(DrainStep(q, grants, d, c))
  {
    var x, t := q.drainers[d], DrainStep(q, grants, d, c);
    assert Ready(q.rows, x);
    DrainSteady(q, grants, x, c);
    DrainAdds(q, grants, d, c);
    assert t.rows == RowsAfter(q.rows, x, c);
    hide DrainStep, RowsAfter, DrainNext, Steady, CanTake;
    forall i | 0 <= i < |t.dispatches| ensures IsReached(t.rows, t.dispatches[i]) {
      if i < |q.dispatches| {
        assert t.dispatches[i] == q.dispatches[i];
        SteadyReaches(q.rows, x, t.rows, DrainNext(q, grants, x, c), q.dispatches[i]);
      } else {
        SteadyReaches(q.rows, x, t.rows, DrainNext(q, grants, x, c), DispatchOf(q, x, d));
      }
    }
  }

  lemma SteadyReaches(rows: seq<Row>, x: Drainer, rows': seq<Row>, y: Drainer, s: Dispatch)
    requires Steady(rows, x, rows', y) && IsReached(rows, s)
    ensures IsReached(rows', s)
  {
  }

  /** Only the row of the drainer's job can be affected. */
  lemma DrainMinds(q: Queue, grants: seq<Grant>, d: nat, c: Choice, s: Dispatch, day: int)
    requires CanDrain(q, d, c) && Known(q) && IsMinded(s, q.rows, q.drainers, day)
    requires q.drainers[d].Working? ==> s.id != q.drainers[d].job.id
    ensures IsMinded(s, DrainStep(q, grants, d, c).rows, DrainStep(q, grants, d, c).drainers, day)
  {
    var x, t := q.drainers[d], DrainStep(q, grants, d, c);
    assert Ready(q.rows, x);
    hide DrainNext, WorkNext, Records, Sends, Moves, Lapses, CanTake;
    if IsOwed(q.drainers, s.id) {
      var e :| 0 <= e < |q.drainers| && Owes(q.drainers[e]) && q.drainers[e].job.id == s.id;
      assert e != d && t.drainers[e] == q.drainers[e];
    } else {
      assert Counts(t.rows[s.id], day);
    }
  }

  lemma JustCalled(q: Queue, grants: seq<Grant>, d: nat, c: Choice, day: int)
    requires CanDrain(q, d, c) && Known(q) && Sends(q.drainers[d], c)
    ensures IsOwed(DrainStep(q, grants, d, c).drainers, q.drainers[d].job.id)
  {
    var x, t := q.drainers[d], DrainStep(q, grants, d, c);
    assert Ready(q.rows, x);
    assert Owes(t.drainers[d]) && t.drainers[d].job.id == x.job.id;
  }

  lemma DrainLoses(q: Queue, grants: seq<Grant>, d: nat, c: Choice, day: int)
    requires CanDrain(q, d, c) && Known(q) && Once(q)
    ensures var t := DrainStep(q, grants, d, c);
            Lost(t.dispatches, t.rows, t.drainers, day) <=
            Lost(q.dispatches, q.rows, q.drainers, day) + if Loses(q, t, day) then 1 else 0
  {
    var x, t := q.drainers[d], DrainStep(q, grants, d, c);
    var id := if x.Working? then x.job.id else 0;
    DrainAdds(q, grants, d, c);
    if Sends(x, c) { JustCalled(q, grants, d, c, day); }
    hide DrainStep, IsMinded, Sends, Once;
    forall i | 0 <= i < |q.dispatches| && q.dispatches[i].id != id && IsMinded(q.dispatches[i], q.rows, q.drainers, day)
      ensures IsMinded(q.dispatches[i], t.rows, t.drainers, day)
    {
      DrainMinds(q, grants, d, c, q.dispatches[i], day);
    }
    LostStep(q.dispatches, q.rows, q.drainers, t.rows, t.drainers, id, day) by { OnceSends(q); }
    DropsIsLoss(q, t, id, day);
    if Sends(x, c) {
      assert t.dispatches[..|q.dispatches|] == q.dispatches;
      OwedIsMinded(DispatchOf(q, x, d), t.rows, t.drainers, day);
    }
  }

  lemma OnceSends(q: Queue)
    requires Once(q)
    ensures SentOnce(q.dispatches)
  {
  }

  lemma OwedIsMinded(s: Dispatch, rows: seq<Row>, xs: seq<Drainer>, day: int)
    requires IsOwed(xs, s.id)
    ensures IsMinded(s, rows, xs, day)
  {
  }

  lemma DropsIsLoss(q: Queue, t: Queue, id: nat, day: int)
    ensures Drops(q.dispatches, q.rows, q.drainers, t.rows, t.drainers, id, day) ==> Loses(q, t, day)
  {
  }

  /** The row a replay resets in the step. */
  function ResetBy(q: Queue, e: Event): int
    requires Enabled(q, e)
  {
    if e.Continue? && q.calls[e.p].Resetting? then q.calls[e.p].id else -1
  }

  lemma OthersMind(q: Queue, grants: seq<Grant>, e: Event, s: Dispatch, day: int)
    requires Enabled(q, e) && !e.Drain? && IsReached(q.rows, s) && IsMinded(s, q.rows, q.drainers, day)
    requires s.id != ResetBy(q, e)
    ensures IsMinded(s, Step(q, grants, e).rows, q.drainers, day)
  {
    hide WasApplied, IsDue, CallNext, InverseOf, IsOwed;
  }

  lemma OthersLose(q: Queue, grants: seq<Grant>, e: Event, day: int)
    requires Enabled(q, e) && !e.Drain? && Once(q) && AllReached(q)
    ensures var t := Step(q, grants, e);
            Lost(t.dispatches, t.rows, t.drainers, day) <=
            Lost(q.dispatches, q.rows, q.drainers, day) + if Loses(q, t, day) then 1 else 0
  {
    var t := Step(q, grants, e);
    var r := ResetBy(q, e);
    var id := if r >= 0 then r else 0;
    OthersSpare(q, grants, e);
    OthersNeverApply(q, grants, e);
    hide Step, IsMinded, Once, Enabled, ResetBy, Spares, NeverApplies;
    forall i | 0 <= i < |q.dispatches| && q.dispatches[i].id != id && IsMinded(q.dispatches[i], q.rows, q.drainers, day)
      ensures IsMinded(q.dispatches[i], t.rows, t.drainers, day)
    {
      OthersMind(q, grants, e, q.dispatches[i], day);
    }
    LostStep(q.dispatches, q.rows, q.drainers, t.rows, t.drainers, id, day) by { OnceSends(q); }
    DropsIsLoss(q, t, id, day);
  }

  /** With `n` losses so far, the day keeps to its books. */
  predicate KeepsCalls(q: Queue, n: nat, day: int) {
    && Calls(q.dispatches, day) + Bound(q.drainers, day) <= DAILY_SEND_CAP - 1 + |q.drainers| + n
    && Lost(q.dispatches, q.rows, q.drainers, day) <= n
  }

  /** A drainer is bound only by passing the check, and is not any more once it has called. */
  lemma Binding(q: Queue, grants: seq<Grant>, x: Drainer, c: Choice, y: Drainer, day: int)
    requires Stamped(x, q.now) && Follows(q, grants, x, c, y)
    ensures IsBound(y, day) && !IsBound(x, day) ==>
              && x.Working? && IsSendFamily(x.job.spec.action) && x.stage.Counting? && !Owes(x)
              && IsMidnight(x.job.since) && x.job.since <= day && BudgetConsumed(q.rows, x.job.since) < DAILY_SEND_CAP
    ensures Sends(x, c) ==> !IsBound(y, day)
    ensures Sends(x, c) && IsSendFamily(x.job.spec.action) && IsMidnight(day) && Midnight(q.now) == day ==>
              IsBound(x, day)
  {
  }

  lemma DrainKeepsCalls(q: Queue, grants: seq<Grant>, d: nat, c: Choice, n: nat, day: int)
    requires CanDrain(q, d, c) && Known(q) && Once(q) && AllReached(q) && KeepsCalls(q, n, day) && IsMidnight(day)
    requires Stamped(q.drainers[d], q.now)
    ensures var t := DrainStep(q, grants, d, c); KeepsCalls(t, n + if Loses(q, t, day) then 1 else 0, day)
  {
    var x, t := q.drainers[d], DrainStep(q, grants, d, c);
    DrainLoses(q, grants, d, c, day);
    DrainFollows(q, grants, x, c);
    Binding(q, grants, x, c, t.drainers[d], day);
    DrainAdds(q, grants, d, c);
    OnceSends(q);
    hide DrainStep, Loses, Lost, Follows, Stamped, Once, AllReached, Sends, IsMidnight, Known, CanTake;
    DrainerUpdate(q.drainers, d, t.drainers[d], day);
    if IsBound(t.drainers[d], day) && !IsBound(x, day) {
      CheckCountsCalls(q.dispatches, q.rows, q.drainers, day, x.job.since);
      DrainerUpdate(q.drainers, d, Idle, day);
      EachOnce(q.drainers[d := Idle], day);
      OneIsFree(q.drainers, d, day);
    }
    if Sends(x, c) { assert t.dispatches[..|q.dispatches|] == q.dispatches; }
  }

  lemma {:induction false} OneIsFree(xs: seq<Drainer>, d: nat, day: int)
    requires d < |xs| && !IsBound(xs[d], day) && !Owes(xs[d])
    ensures Bound(xs, day) + Owing(xs) < |xs|
  {
    var n := |xs| - 1;
    if d < n { OneIsFree(xs[..n], d, day); } else { EachOnce(xs[..n], day); }
  }

  lemma StepKeepsCalls(q: Queue, grants: seq<Grant>, e: Event, n: nat, day: int)
    requires Enabled(q, e) && Known(q) && Once(q) && AllReached(q) && Capped(q) && KeepsCalls(q, n, day)
    requires IsMidnight(day)
    ensures var t := Step(q, grants, e); KeepsCalls(t, n + if Loses(q, t, day) then 1 else 0, day)
  {
    if e.Drain? {
      assert Stamped(q.drainers[e.d], q.now);
      DrainKeepsCalls(q, grants, e.d, e.choice, n, day);
    } else {
      OthersSpare(q, grants, e);
      OthersNeverApply(q, grants, e);
      OthersLose(q, grants, e, day);
    }
  }

  // ----- whole runs -----

  /** How often in the run a send of the day ceased to be minded. */
  ghost function Losses(q: Queue, ts: seq<Tick>, day: int): nat
    requires Runs(q, ts)
    decreases |ts|
  {
    if ts == [] then 0
    else
      var t := Step(q, ts[0].grants, ts[0].event);
      (if Loses(q, t, day) then 1 else 0) + Losses(t, ts[1..], day)
  }

  ghost predicate IsSound(q: Queue, n: nat, day: int) {
    Known(q) && Once(q) && AllReached(q) && Capped(q) && KeepsCalls(q, n, day)
  }

  lemma StepKeepsSound(q: Queue, grants: seq<Grant>, e: Event, n: nat, day: int)
    requires Enabled(q, e) && IsSound(q, n, day) && IsMidnight(day)
    ensures var t := Step(q, grants, e); IsSound(t, n + if Loses(q, t, day) then 1 else 0, day)
    ensures |Step(q, grants, e).drainers| == |q.drainers|
  {
    hide Step, Enabled, KeepsCalls, Known, Once, AllReached, Capped, Loses, IsMidnight;
    StepKeepsKnown(q, grants, e);
    StepKeepsOnce(q, grants, e);
    StepKeepsCapped(q, grants, e);
    StepReaches(q, grants, e);
    StepKeepsCalls(q, grants, e, n, day);
  }

  lemma {:induction false} RunKeepsSound(q: Queue, ts: seq<Tick>, n: nat, day: int)
    requires Runs(q, ts) && IsSound(q, n, day) && IsMidnight(day)
    ensures IsSound(After(q, ts), n + Losses(q, ts, day), day) && |After(q, ts).drainers| == |q.drainers|
    decreases |ts|
  {
    hide Step, Enabled, IsSound, Loses, IsMidnight;
    if ts != [] {
      var t := Step(q, ts[0].grants, ts[0].event);
      StepKeepsSound(q, ts[0].grants, ts[0].event, n, day);
      RunKeepsSound(t, ts[1..], n + (if Loses(q, t, day) then 1 else 0), day);
    }
  }

  lemma StartIsSound(q: Queue, day: int)
    requires Known(q) && Once(q) && Capped(q) && q.dispatches == []
    requires forall d | 0 <= d < |q.drainers| :: q.drainers[d].Idle?
    ensures IsSound(q, 0, day)
  {
    hide Known, Once, Capped;
    NobodyIsBound(q.drainers, day);
  }

  /** On every UTC day of every run with k drainers, the adapter is called for at most 20 + (k - 1) sends,
      whatever it answers, and for one more each time a send of the day ceased to be minded. */
  lemma DailyCalls(q: Queue, ts: seq<Tick>, day: int)
    requires Runs(q, ts) && Known(q) && Once(q) && Capped(q) && q.dispatches == [] && IsMidnight(day)
    requires forall d | 0 <= d < |q.drainers| :: q.drainers[d].Idle?
    ensures Calls(After(q, ts).dispatches, day) <= 20 + (|q.drainers| - 1) + Losses(q, ts, day)
  {
    hide *;
    StartIsSound(q, day);
    RunKeepsSound(q, ts, 0, day);
    BooksSay(After(q, ts), Losses(q, ts, day), day);
  }

  lemma BooksSay(q: Queue, n: nat, day: int)
    requires IsSound(q, n, day)
    ensures Calls(q.dispatches, day) <= 19 + |q.drainers| + n
  {
    hide Known, Once, Capped, AllReached;
  }

  lemma {:induction false} NobodyIsBound(xs: seq<Drainer>, day: int)
    requires forall d | 0 <= d < |xs| :: xs[d].Idle?
    ensures Bound(xs, day) == 0
  {
    if xs != [] { NobodyIsBound(xs[..|xs| - 1], day); }
  }

  // ----- what a loss is -----

  /** A worker dies before its verdict is written, or cannot write it. */
  predicate Abandons(x: Drainer, c: Choice) { Owes(x) && (c == Crash || c == Lose) }

  /** A verdict's stamp is not counted on the day: it lies in the day's first second, or before the day. */
  predicate StampsUnseen(x: Drainer, c: Choice, day: int) {
    && (Completes(x, c, Marking) || Completes(x, c, Failing) || Completes(x, c, Recovering))
    && !Seen(Some(x.job.stamp), day)
  }

  /** A send ceases to be minded only by one of these: its worker is lost with the verdict, the verdict is
      stamped in the day's first second or, late, before it, or a replay takes the stamp back. */
  lemma LossesAre(q: Queue, grants: seq<Grant>, e: Event, day: int)
    requires Enabled(q, e) && Known(q) && Once(q) && AllReached(q) && Loses(q, Step(q, grants, e), day)
    ensures if e.Drain? then Abandons(q.drainers[e.d], e.choice) || StampsUnseen(q.drainers[e.d], e.choice, day)
            else ResetBy(q, e) >= 0
  {
    var t := Step(q, grants, e);
    hide IsMinded, Step, Known, Once, Abandons, StampsUnseen, CalledOn;
    var i :| 0 <= i < |q.dispatches| && CalledOn(q.dispatches[i], day) &&
             IsMinded(q.dispatches[i], q.rows, q.drainers, day) && !IsMinded(q.dispatches[i], t.rows, t.drainers, day);
    assert IsReached(q.rows, q.dispatches[i]);
    if e.Drain? {
      if !Abandons(q.drainers[e.d], e.choice) && !StampsUnseen(q.drainers[e.d], e.choice, day) {
        VerdictMinds(q, grants, e.d, e.choice, q.dispatches[i], day);
      }
    } else {
      if ResetBy(q, e) < 0 {
        OthersSpare(q, grants, e);
        OthersMind(q, grants, e, q.dispatches[i], day); }
    }
  }

  lemma VerdictMinds(q: Queue, grants: seq<Grant>, d: nat, c: Choice, s: Dispatch, day: int)
    requires CanDrain(q, d, c) && Known(q) && IsReached(q.rows, s) && CalledOn(s, day)
    requires IsMinded(s, q.rows, q.drainers, day)
    requires !Abandons(q.drainers[d], c) && !StampsUnseen(q.drainers[d], c, day)
    ensures var t := DrainStep(q, grants, d, c); IsMinded(s, t.rows, t.drainers, day)
  {
    var x, t := q.drainers[d], DrainStep(q, grants, d, c);
    assert Ready(q.rows, x);
    if x.Working? && x.job.id == s.id {
      OwnVerdict(q, grants, d, c, s, day);
    } else {
      DrainMinds(q, grants, d, c, s, day);
    }
  }

  /** The drainer of the row keeps it minded. */
  lemma OwnVerdict(q: Queue, grants: seq<Grant>, d: nat, c: Choice, s: Dispatch, day: int)
    requires CanDrain(q, d, c) && Known(q) && IsReached(q.rows, s) && CalledOn(s, day)
    requires IsMinded(s, q.rows, q.drainers, day) && q.drainers[d].Working? && q.drainers[d].job.id == s.id
    requires !Abandons(q.drainers[d], c) && !StampsUnseen(q.drainers[d], c, day)
    ensures var t := DrainStep(q, grants, d, c); IsMinded(s, t.rows, t.drainers, day)
  {
    var x, t := q.drainers[d], DrainStep(q, grants, d, c);
    assert Ready(q.rows, x);
    DrainFollows(q, grants, x, c);
    hide DrainNext, WorkNext, Records, Moves, Lapses, CanTake, CanWork, Sends, WasApplied;
    if Owes(x) {
      if Owes(t.drainers[d]) {
        assert t.drainers[d].job.id == s.id;
      } else {
        assert Counts(t.rows[s.id], day);
      }
    } else if IsOwed(q.drainers, s.id) {
      var e :| 0 <= e < |q.drainers| && Owes(q.drainers[e]) && q.drainers[e].job.id == s.id;
      assert t.drainers[e] == q.drainers[e];
    } else {
      assert Counts(t.rows[s.id], day);
    }
  }
}
