/** What the history table's primary key gives: Graph is asked at most once per row, for ever. */
module Dispatches {
  import opened Actions
  import opened Tables
  import opened Queue
  import opened Ownership

  predicate WasSent(ds: seq<Dispatch>, id: nat) {
    exists k | 0 <= k < |ds| :: ds[k].id == id
  }

  predicate SentOnce(ds: seq<Dispatch>) {
    forall i, j | 0 <= i < j < |ds| :: ds[i].id != ds[j].id
  }

  predicate SentHaveHistory(ds: seq<Dispatch>, history: map<nat, History>) {
    forall k | 0 <= k < |ds| :: ds[k].id in history
  }

  predicate AppliedOnce(done: seq<Application>) {
    forall i, j | 0 <= i < j < |done| :: done[i].id != done[j].id
  }

  predicate AppliedHaveHistory(done: seq<Application>, history: map<nat, History>) {
    forall k | 0 <= k < |done| :: done[k].id in history
  }

  /** Past the history insert, and not past MARK_APPLIED. */
  predicate Past(x: Drainer) { x.Working? && (x.stage.Dispatching? || x.stage.Stamping? || x.stage.Marking?) }

  /** Such a drainer has written the row's only history entry, and before it calls the adapter the row
      has not been sent. */
  predicate ReadyOnce(x: Drainer, ds: seq<Dispatch>, done: seq<Application>, history: map<nat, History>) {
    Past(x) ==>
      && x.job.id in history && !WasApplied(done, x.job.id)
      && (x.stage.Dispatching? ==> !WasSent(ds, x.job.id))
  }

  /** Only the first insert under a key succeeds. */
  predicate KeysApart(x: Drainer, y: Drainer) { Past(x) && Past(y) ==> x.job.id != y.job.id }

  ghost predicate Once(q: Queue) {
    && SentOnce(q.dispatches) && SentHaveHistory(q.dispatches, q.history)
    && AppliedOnce(q.applied) && AppliedHaveHistory(q.applied, q.history)
    && (forall d | 0 <= d < |q.drainers| :: ReadyOnce(q.drainers[d], q.dispatches, q.applied, q.history))
    && (forall d, e | 0 <= d < |q.drainers| && 0 <= e < |q.drainers| && d != e ::
          KeysApart(q.drainers[d], q.drainers[e]))
  }

  lemma ReachPast(q: Queue, grants: seq<Grant>, x: Drainer, c: Choice, y: Drainer)
    requires Follows(q, grants, x, c, y) && Past(y)
    ensures y.job.id == x.job.id
    ensures if y.stage.Dispatching? then Records(q, x, c) else Past(x) && !Completes(x, c, Marking)
  {
  }

  /** What a drainer's step adds to the records. */
  predicate Adds(q: Queue, x: Drainer, c: Choice, d: nat, t: Queue) {
    && t.dispatches == (if Sends(x, c) then q.dispatches + [DispatchOf(q, x, d)] else q.dispatches)
    && t.applied == (if Completes(x, c, Marking) then q.applied + [Application(x.job.id, x.job.spec, x.job.stamp)]
                     else q.applied)
    && t.history.Keys == (if Records(q, x, c) then q.history.Keys + {x.job.id} else q.history.Keys)
  }

  lemma DrainAdds(q: Queue, grants: seq<Grant>, d: nat, c: Choice)
    requires CanDrain(q, d, c)
    ensures Adds(q, q.drainers[d], c, d, DrainStep(q, grants, d, c))
  {
    hide DrainNext, RowsAfter, Moves, Undelete, Lapses;
  }

  lemma OtherStaysOnce(q: Queue, grants: seq<Grant>, x: Drainer, c: Choice, y: Drainer, d: nat, t: Queue, z: Drainer)
    requires Follows(q, grants, x, c, y) && Adds(q, x, c, d, t)
    requires ReadyOnce(x, q.dispatches, q.applied, q.history) && ReadyOnce(z, q.dispatches, q.applied, q.history)
    requires KeysApart(x, z)
    ensures ReadyOnce(z, t.dispatches, t.applied, t.history) && KeysApart(y, z) && KeysApart(z, y)
  {
    hide Follows, Sends, Records, WasSent, WasApplied;
    if Past(y) { ReachPast(q, grants, x, c, y); }
    if Past(z) { OtherLogs(q, grants, x, c, y, d, t, z); }
  }

  lemma OtherLogs(q: Queue, grants: seq<Grant>, x: Drainer, c: Choice, y: Drainer, d: nat, t: Queue, z: Drainer)
    requires Follows(q, grants, x, c, y) && Adds(q, x, c, d, t) && Past(z)
    requires ReadyOnce(x, q.dispatches, q.applied, q.history) && ReadyOnce(z, q.dispatches, q.applied, q.history)
    requires KeysApart(x, z)
    ensures ReadyOnce(z, t.dispatches, t.applied, t.history) && (Records(q, x, c) ==> x.job.id != z.job.id)
  {
    hide Follows;
  }

  lemma OwnStaysOnce(q: Queue, grants: seq<Grant>, x: Drainer, c: Choice, y: Drainer, d: nat, t: Queue)
    requires Follows(q, grants, x, c, y) && Adds(q, x, c, d, t)
    requires ReadyOnce(x, q.dispatches, q.applied, q.history)
    requires SentHaveHistory(q.dispatches, q.history) && AppliedHaveHistory(q.applied, q.history)
    ensures ReadyOnce(y, t.dispatches, t.applied, t.history)
  {
    hide Follows;
    if Past(y) { ReachPast(q, grants, x, c, y); }
  }

  lemma LogsStayOnce(q: Queue, x: Drainer, c: Choice, d: nat, t: Queue)
    requires Once(q) && Adds(q, x, c, d, t) && ReadyOnce(x, q.dispatches, q.applied, q.history)
    ensures SentOnce(t.dispatches) && SentHaveHistory(t.dispatches, t.history)
    ensures AppliedOnce(t.applied) && AppliedHaveHistory(t.applied, t.history)
  {
  }

  lemma DrainKeepsOnce(q: Queue, grants: seq<Grant>, d: nat, c: Choice)
    requires CanDrain(q, d, c) && Once(q)
    ensures Once(DrainStep(q, grants, d, c))
  {
    var x, t := q.drainers[d], DrainStep(q, grants, d, c);
    DrainFollows(q, grants, x, c);
    DrainAdds(q, grants, d, c);
    assert ReadyOnce(x, q.dispatches, q.applied, q.history);
    var y := DrainNext(q, grants, x, c);
    assert t.drainers == q.drainers[d := y];
    LogsStayOnce(q, x, c, d, t);
    hide DrainStep, DrainNext, Follows, CanTake, Adds, SentOnce, SentHaveHistory, AppliedOnce, AppliedHaveHistory;
    OwnStaysOnce(q, grants, x, c, y, d, t);
    forall e | 0 <= e < |t.drainers| && e != d
      ensures ReadyOnce(t.drainers[e], t.dispatches, t.applied, t.history)
      ensures KeysApart(t.drainers[d], t.drainers[e]) && KeysApart(t.drainers[e], t.drainers[d])
    {
      OtherStaysOnce(q, grants, x, c, y, d, t, q.drainers[e]);
    }
  }

  lemma StepKeepsOnce(q: Queue, grants: seq<Grant>, e: Event)
    requires Enabled(q, e) && Once(q)
    ensures Once(Step(q, grants, e))
  {
    if e.Drain? {
      DrainKeepsOnce(q, grants, e.d, e.choice);
    } else {
      OthersSpare(q, grants, e);
      var t := Step(q, grants, e);
      assert t.dispatches == q.dispatches && t.applied == q.applied && q.history.Keys <= t.history.Keys;
      forall d | 0 <= d < |t.drainers| ensures ReadyOnce(t.drainers[d], t.dispatches, t.applied, t.history) {
        assert ReadyOnce(q.drainers[d], q.dispatches, q.applied, q.history);
      }
    }
  }

  /** Whatever fails, is lost, crashes, is replayed or is failed late, and however many drainers hold
      the row, the adapter is called at most once for it and it is marked applied at most once: the
      primary key alone sees to that. */
  lemma {:induction false} AtMostOneDispatch(q: Queue, ts: seq<Tick>)
    requires Runs(q, ts) && Once(q)
    ensures SentOnce(After(q, ts).dispatches) && AppliedOnce(After(q, ts).applied) && Once(After(q, ts))
    decreases |ts|
  {
    if ts != [] {
      StepKeepsOnce(q, ts[0].grants, ts[0].event);
      AtMostOneDispatch(Step(q, ts[0].grants, ts[0].event), ts[1..]);
    }
  }

  // ----- replay -----

  /** A drainer that works on the row is not past the history insert. */
  predicate BeforeHistory(x: Drainer, id: nat) {
    x.Working? && x.job.id == id ==> !x.stage.Dispatching? && !x.stage.Stamping? && !x.stage.Marking?
  }

  /** The row has its history entry, has not been applied, and no drainer is past that insert with it. */
  ghost predicate Spent(q: Queue, id: nat) {
    && id < |q.rows| && id in q.history && !q.rows[id].status.Applied?
    && forall d | 0 <= d < |q.drainers| :: BeforeHistory(q.drainers[d], id)
  }

  lemma SpentNext(q: Queue, grants: seq<Grant>, x: Drainer, c: Choice, y: Drainer, id: nat)
    requires Follows(q, grants, x, c, y) && BeforeHistory(x, id) && id in q.history
    ensures BeforeHistory(y, id)
    ensures Sends(x, c) ==> x.job.id != id
    ensures Completes(x, c, Marking) ==> x.job.id != id
  {
  }

  lemma StepKeepsSpent(q: Queue, grants: seq<Grant>, e: Event, id: nat)
    requires Enabled(q, e) && Spent(q, id)
    ensures Spent(Step(q, grants, e), id)
    ensures WasSent(Step(q, grants, e).dispatches, id) ==> WasSent(q.dispatches, id)
  {
    var t := Step(q, grants, e);
    if e.Drain? {
      var x := q.drainers[e.d];
      assert BeforeHistory(x, id);
      DrainFollows(q, grants, x, e.choice);
      SpentNext(q, grants, x, e.choice, t.drainers[e.d], id);
      assert WasSent(t.dispatches, id) ==> WasSent(q.dispatches, id);
      forall d | 0 <= d < |t.drainers| ensures BeforeHistory(t.drainers[d], id) {
        if d != e.d { assert BeforeHistory(q.drainers[d], id); }
      }
    } else {
      OthersSpare(q, grants, e);
      OthersNeverApply(q, grants, e);
      forall d | 0 <= d < |t.drainers| ensures BeforeHistory(t.drainers[d], id) {
        assert BeforeHistory(q.drainers[d], id);
      }
    }
  }

  /** Replay cannot rescue a row whose dispatch failed: its history entry stays, the second insert
      raises, and the row is never sent again and never applied. */
  lemma {:induction false} ReplayAfterDispatchIsFutile(q: Queue, ts: seq<Tick>, id: nat)
    requires Runs(q, ts) && Spent(q, id)
    ensures var t := After(q, ts); id < |t.rows| && !t.rows[id].status.Applied?
    ensures WasSent(After(q, ts).dispatches, id) ==> WasSent(q.dispatches, id)
    decreases |ts|
  {
    if ts != [] {
      StepKeepsSpent(q, ts[0].grants, ts[0].event, id);
      ReplayAfterDispatchIsFutile(Step(q, ts[0].grants, ts[0].event), ts[1..], id);
    }
  }

  // ----- when applied is final -----

  /** The drainer may still write the row: RELEASE_CLAIM alone spares an applied one. */
  predicate MayWrite(x: Drainer, id: nat) { x.Working? && x.job.id == id && !x.stage.Releasing? }

  ghost predicate SomebodyMayWrite(xs: seq<Drainer>, id: nat) {
    exists d | 0 <= d < |xs| :: MayWrite(xs[d], id)
  }

  predicate IsApplied(rows: seq<Row>, id: nat) { id < |rows| && rows[id].status.Applied? }

  lemma SettledStays(q: Queue, grants: seq<Grant>, x: Drainer, c: Choice, id: nat)
    requires CanTake(q, x, c) && IsApplied(q.rows, id) && !MayWrite(x, id)
    ensures var rows := RowsAfter(q.rows, x, c); id < |rows| && rows[id] == q.rows[id]
    ensures !MayWrite(DrainNext(q, grants, x, c), id)
  {
    DrainFollows(q, grants, x, c);
  }

  lemma StepKeepsSettled(q: Queue, grants: seq<Grant>, e: Event, id: nat)
    requires Enabled(q, e) && IsApplied(q.rows, id) && !SomebodyMayWrite(q.drainers, id)
    ensures var t := Step(q, grants, e);
            IsApplied(t.rows, id) && t.rows[id] == q.rows[id] && !SomebodyMayWrite(t.drainers, id)
  {
    var t := Step(q, grants, e);
    if e.Drain? {
      var x := q.drainers[e.d];
      assert !MayWrite(x, id);
      SettledStays(q, grants, x, e.choice, id);
      hide DrainNext, RowsAfter, CanTake, Records, Sends, Moves, Completes, Lapses;
      forall d | 0 <= d < |t.drainers| ensures !MayWrite(t.drainers[d], id) {
        if d != e.d { assert !MayWrite(q.drainers[d], id); }
      }
    } else {
      OthersSpare(q, grants, e);
    }
  }

  lemma {:induction false} SettledIsFinal(q: Queue, ts: seq<Tick>, id: nat)
    requires Runs(q, ts) && IsApplied(q.rows, id) && !SomebodyMayWrite(q.drainers, id)
    ensures var t := After(q, ts); id < |t.rows| && t.rows[id] == q.rows[id]
    decreases |ts|
  {
    if ts != [] {
      StepKeepsSettled(q, ts[0].grants, ts[0].event, id);
      SettledIsFinal(Step(q, ts[0].grants, ts[0].event), ts[1..], id);
    }
  }

  ghost predicate Rewrites(q: Queue, ts: seq<Tick>, id: nat)
    requires id < |q.rows|
  {
    Runs(q, ts) && var t := After(q, ts); !(id < |t.rows| && t.rows[id] == q.rows[id])
  }

  /** How many steps the drainer is from a MARK_FAILED, if the world is against it. */
  function ToFailure(paused: bool, x: Drainer): nat
    requires x.Working?
  {
    match x.stage
    case Claimed => if paused then 7 else 6
    case Dispatching => 5
    case Stamping => 4
    case Failing | Recovering => 1
    case _ => 2
  }

  function WorstChoice(x: Drainer): Choice
    requires x.Working?
  {
    match x.stage
    case Claimed | Stamping | Failing | Recovering => Go
    case Dispatching => if IsLocalOnly(x.job.spec.action) then Go else Fail
    case _ => Throw
  }

  lemma WorstNext(q: Queue, x: Drainer)
    requires x.Working? && !x.stage.Releasing? && (x.stage.Claimed? ==> !q.paused)
    ensures CanWork(q, x, WorstChoice(x))
    ensures ToFailure(q.paused, x) > 1 ==>
              var y := WorkNext(q, [], x, WorstChoice(x));
              MayWrite(y, x.job.id) && ToFailure(q.paused, y) < ToFailure(q.paused, x)
  {
  }

  lemma WorstRows(rows: seq<Row>, x: Drainer, id: nat)
    requires MayWrite(x, id) && IsApplied(rows, id)
    ensures var r := RowsAfter(rows, x, WorstChoice(x));
            id < |r| && if ToFailure(false, x) == 1 then r[id].status.Failed? else r[id] == rows[id]
  {
  }

  lemma WorstStep(q: Queue, d: nat, id: nat) returns (e: Event, t: Queue)
    requires d < |q.drainers| && MayWrite(q.drainers[d], id) && IsApplied(q.rows, id)
    ensures Enabled(q, e) && t == Step(q, [], e) && id < |t.rows| && d < |t.drainers|
    ensures if ToFailure(q.paused, q.drainers[d]) == 1 then t.rows[id].status.Failed?
            else MayWrite(t.drainers[d], id) && t.rows[id] == q.rows[id] &&
                 ToFailure(t.paused, t.drainers[d]) < ToFailure(q.paused, q.drainers[d])
  {
    var x := q.drainers[d];
    if x.stage.Claimed? && q.paused {
      e, t := Resume, Step(q, [], Resume);
    } else {
      WorstNext(q, x);
      WorstRows(q.rows, x, id);
      hide WorkNext, RowsAfter, WorstChoice, CanWork;
      e, t := Drain(d, WorstChoice(x)), DrainStep(q, [], d, WorstChoice(x));
    }
  }

  lemma {:induction false} SomeRunRewrites(q: Queue, d: nat, id: nat) returns (ts: seq<Tick>)
    requires d < |q.drainers| && MayWrite(q.drainers[d], id) && IsApplied(q.rows, id)
    ensures Rewrites(q, ts, id)
    decreases ToFailure(q.paused, q.drainers[d])
  {
    var e, t := WorstStep(q, d, id);
    hide Enabled, Step;
    var rest: seq<Tick> := [];
    if ToFailure(q.paused, q.drainers[d]) > 1 { rest := SomeRunRewrites(t, d, id); }
    ts := [Tick([], e)] + rest;
    assert ts[0] == Tick([], e) && ts[1..] == rest;
    assert Runs(t, rest) && After(q, ts) == After(t, rest);
  }

  /** An applied row is final exactly when no drainer still works on it (other than to give it back):
      otherwise an exception on the drainer's way, the notification of an earlier failure included,
      fails it after all. */
  lemma AppliedIsFinal(q: Queue, id: nat)
    requires IsApplied(q.rows, id)
    ensures (forall ts: seq<Tick> :: !Rewrites(q, ts, id)) <==> !SomebodyMayWrite(q.drainers, id)
  {
    if SomebodyMayWrite(q.drainers, id) {
      var d :| 0 <= d < |q.drainers| && MayWrite(q.drainers[d], id);
      var ts := SomeRunRewrites(q, d, id);
    } else {
      forall ts: seq<Tick> ensures !Rewrites(q, ts, id) {
        if Runs(q, ts) { SettledIsFinal(q, ts, id); }
      }
    }
  }
}
