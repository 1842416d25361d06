/** The pause switch: re-read between each claim and its dispatch. */
module Pause {
  import opened Tables
  import opened Queue
  import opened Ownership

  /** Past its post-claim pause read and not yet at the adapter. */
  predicate Armed(x: Drainer) {
    x.Working? && !x.stage.Claimed? && !x.stage.Releasing? && !x.stage.Stamping? && !x.stage.Marking?
    && !x.stage.Repairing? && !x.stage.Failing? && !x.stage.Notifying? && !x.stage.Recovering? && !x.stage.Waiting?
  }

  /** How many dispatches the drainer has made. */
  function By(ds: seq<Dispatch>, d: nat): nat {
    if ds == [] then 0 else By(ds[..|ds| - 1], d) + if ds[|ds| - 1].drainer == d then 1 else 0
  }

  function Budget(q: Queue, d: nat): nat
    requires d < |q.drainers|
  {
    By(q.dispatches, d) + if Armed(q.drainers[d]) then 1 else 0
  }

  predicate StaysPaused(ts: seq<Tick>) {
    forall k | 0 <= k < |ts| :: !ts[k].event.Resume?
  }

  lemma ArmedOnlyWhileRunning(q: Queue, grants: seq<Grant>, x: Drainer, c: Choice, y: Drainer)
    requires Follows(q, grants, x, c, y) && q.paused
    ensures Armed(y) ==> Armed(x)
    ensures Sends(x, c) ==> Armed(x) && !Armed(y)
  {
  }

  lemma StepSpendsBudget(q: Queue, grants: seq<Grant>, e: Event, d: nat)
    requires Enabled(q, e) && q.paused && !e.Resume? && d < |q.drainers|
    ensures var t := Step(q, grants, e); t.paused && |t.drainers| == |q.drainers| && Budget(t, d) <= Budget(q, d)
  {
    var t := Step(q, grants, e);
    if e.Drain? {
      var x := q.drainers[e.d];
      DrainFollows(q, grants, x, e.choice);
      ArmedOnlyWhileRunning(q, grants, x, e.choice, t.drainers[e.d]);
      if Sends(x, e.choice) {
        var s := DispatchOf(q, x, e.d);
        assert t.dispatches[..|q.dispatches|] == q.dispatches && t.dispatches[|q.dispatches|] == s;
      }
    } else {
      OthersNeverApply(q, grants, e);
      OthersSpare(q, grants, e);
    }
  }

  /** From the moment a pause is stored until a resume, each drainer makes at most one more
      dispatch, and only if it was already past its pause read. */
  lemma {:induction false} PauseAllowsOneMore(q: Queue, ts: seq<Tick>, d: nat)
    requires Runs(q, ts) && q.paused && StaysPaused(ts) && d < |q.drainers|
    ensures var t := After(q, ts);
            && t.paused && |t.drainers| == |q.drainers|
            && By(t.dispatches, d) + (if Armed(t.drainers[d]) then 1 else 0) <=
               By(q.dispatches, d) + (if Armed(q.drainers[d]) then 1 else 0)
    decreases |ts|
  {
    if ts != [] {
      assert !ts[0].event.Resume?;
      StepSpendsBudget(q, ts[0].grants, ts[0].event, d);
      assert StaysPaused(ts[1..]) by {
        forall k | 0 <= k < |ts| - 1 ensures !ts[1..][k].event.Resume? { assert !ts[k + 1].event.Resume?; }
      }
      PauseAllowsOneMore(Step(q, ts[0].grants, ts[0].event), ts[1..], d);
    }
  }

  // ----- a claim that meets a pause -----

  /** The worker dies with the row, or cannot write its release. */
  predicate Dies(e: Event, d: nat) { e.Drain? && e.d == d && e.choice == Crash }

  predicate Stays(ts: seq<Tick>, d: nat) {
    forall k | 0 <= k < |ts| :: !ts[k].event.Resume? && !Dies(ts[k].event, d)
  }

  /** Claimed before the pause was seen, and on its way back. */
  predicate Returning(x: Drainer, id: nat) {
    x.Working? && x.job.id == id && !x.job.late && (x.stage.Claimed? || x.stage.Releasing?)
  }

  /** The drainer steps out of its tick by giving the row back. */
  ghost predicate Returns(q: Queue, grants: seq<Grant>, e: Event, d: nat, id: nat)
    requires Enabled(q, e) && d < |q.drainers|
  {
    && e == Drain(d, Go) && Returning(q.drainers[d], id) && q.drainers[d].stage.Releasing?
    && var t := Step(q, grants, e);
       && d < |t.drainers| && t.drainers[d].Idle?
       && id < |q.rows| && t.rows == q.rows[id := RowAfter(q.rows[id], Releasing, q.drainers[d].job)]
       && t.dispatches == q.dispatches
  }

  ghost predicate ReturnsAtSomePoint(q: Queue, ts: seq<Tick>, d: nat, id: nat)
    requires Runs(q, ts)
    decreases |ts|
  {
    && ts != [] && d < |q.drainers|
    && (Returns(q, ts[0].grants, ts[0].event, d, id) ||
        ReturnsAtSomePoint(Step(q, ts[0].grants, ts[0].event), ts[1..], d, id))
  }

  lemma StepReturns(q: Queue, grants: seq<Grant>, e: Event, d: nat, id: nat)
    requires Enabled(q, e) && Known(q) && q.paused && d < |q.drainers| && Returning(q.drainers[d], id)
    requires !e.Resume? && !Dies(e, d)
    ensures var t := Step(q, grants, e);
            && t.paused && |t.drainers| == |q.drainers|
            && (Returning(t.drainers[d], id) || Returns(q, grants, e, d, id))
            && By(t.dispatches, d) == By(q.dispatches, d)
  {
    var t := Step(q, grants, e);
    if e.Drain? {
      var x := q.drainers[e.d];
      assert Ready(q.rows, x);
      DrainFollows(q, grants, x, e.choice);
      if Sends(x, e.choice) {
        assert t.dispatches[..|q.dispatches|] == q.dispatches;
        assert t.dispatches[|q.dispatches|] == DispatchOf(q, x, e.d);
      }
    } else {
      OthersNeverApply(q, grants, e);
      OthersSpare(q, grants, e);
    }
  }

  /** A row claimed before a lasting pause is seen is not dispatched by its drainer: the drainer is
      still on its way to release it, or has released it, to `pending` if it was still `draining`,
      and left its tick. */
  lemma {:induction false} PauseReturnsTheRow(q: Queue, ts: seq<Tick>, d: nat, id: nat)
    requires Runs(q, ts) && Known(q) && q.paused && Stays(ts, d)
    requires d < |q.drainers| && Returning(q.drainers[d], id)
    ensures var t := After(q, ts);
            && |t.drainers| == |q.drainers|
            && (ReturnsAtSomePoint(q, ts, d, id) || Returning(t.drainers[d], id))
            && By(t.dispatches, d) == By(q.dispatches, d)
    decreases |ts|
  {
    if ts != [] {
      var t := Step(q, ts[0].grants, ts[0].event);
      assert !ts[0].event.Resume? && !Dies(ts[0].event, d);
      StepReturns(q, ts[0].grants, ts[0].event, d, id);
      StepKeepsKnown(q, ts[0].grants, ts[0].event);
      assert Stays(ts[1..], d) by {
        forall k | 0 <= k < |ts| - 1 ensures !ts[1..][k].event.Resume? && !Dies(ts[1..][k].event, d) {
          assert !ts[k + 1].event.Resume? && !Dies(ts[k + 1].event, d);
        }
      }
      if Returning(t.drainers[d], id) {
        PauseReturnsTheRow(t, ts[1..], d, id);
      } else {
        assert StaysPaused(ts[1..]);
        PauseAllowsOneMore(t, ts[1..], d);
        DispatchesGrow(t, ts[1..], d);
      }
    }
  }

  lemma {:induction false} DispatchesGrow(q: Queue, ts: seq<Tick>, d: nat)
    requires Runs(q, ts)
    ensures By(q.dispatches, d) <= By(After(q, ts).dispatches, d)
    decreases |ts|
  {
    if ts != [] {
      var e := ts[0].event;
      var t := Step(q, ts[0].grants, e);
      if e.Drain? && Sends(q.drainers[e.d], e.choice) {
        assert t.dispatches[..|q.dispatches|] == q.dispatches;
      } else {
        assert t.dispatches == q.dispatches;
      }
      DispatchesGrow(t, ts[1..], d);
    }
  }
}
