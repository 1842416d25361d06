/** The cooling-off window before a send, and the cancel it exists for. */
module CoolingOff {
  import opened Actions
  import opened Timestamps
  import opened Tables
  import opened Queue
  import opened Ownership
  import opened Dispatches

  predicate IsSend(s: Spec) { IsSendFamily(s.action) }

  /** What the window counts from: the proposal, or, for a ticker that reads the clock on a whole
      second, the beginning of the second it was made in. */
  function WindowStart(proposedAt: int, exact: bool): int {
    if exact then proposedAt else proposedAt - proposedAt % SECOND
  }

  predicate Cooled(s: Spec, now: int, window: nat, exact: bool) {
    WindowStart(s.proposedAt, exact) + window * SECOND <= now
  }

  predicate Waits(r: Row) { r.status.CoolingOff? || r.status.Cancelled? }

  /** The reverter only ever queues Tier-1 rows. */
  predicate Sane(c: Call, now: int) {
    c.Resolved? || c.Claiming? || c.Inverting? ==>
      c.inverse.tier == TierFor(c.inverse.action) == 1 && c.inverse.proposedAt <= now
  }

  /** An exact ticker never reads the clock on a whole second. */
  predicate Ticks(e: Event, window: nat, exact: bool) {
    e.CoolingTick? ==> e.window == window && (exact ==> e.asOf % SECOND != 0)
  }

  predicate RowCooled(r: Row, now: int, window: nat, exact: bool) {
    && r.spec.proposedAt <= now
    && (IsSend(r.spec) && !Waits(r) ==> Cooled(r.spec, now, window, exact))
  }

  predicate SentCooled(s: Dispatch, now: int, window: nat, exact: bool) {
    s.spec.proposedAt <= s.at <= now && (IsSend(s.spec) ==> Cooled(s.spec, s.at, window, exact))
  }

  ghost predicate Cooling(q: Queue, window: nat, exact: bool) {
    && (forall i | 0 <= i < |q.rows| :: RowCooled(q.rows[i], q.now, window, exact))
    && (forall p | p in q.calls :: Sane(q.calls[p], q.now))
    && (forall k | 0 <= k < |q.dispatches| ::
          && q.dispatches[k].id < |q.rows| && !Waits(q.rows[q.dispatches[k].id])
          && SentCooled(q.dispatches[k], q.now, window, exact))
  }

  /** What the text comparison of `COOLING_OFF_PROMOTE_DUE` says of instants: a proposal is due early
      exactly in the second after a whole-second cutoff. */
  lemma DueEarlyIff(proposedAt: int, cutoff: int)
    ensures UtcAtMost(proposedAt, cutoff) && cutoff < proposedAt <==>
            cutoff % SECOND == 0 && cutoff < proposedAt < cutoff + SECOND
    ensures UtcAtMost(proposedAt, cutoff) ==> WindowStart(proposedAt, cutoff % SECOND != 0) <= cutoff
  {
    if cutoff % SECOND == 0 && cutoff < proposedAt < cutoff + SECOND {
      assert cutoff == SECOND * (cutoff / SECOND);
      assert proposedAt / SECOND == cutoff / SECOND;
    }
  }

  lemma DueIsCooled(proposedAt: int, asOf: int, window: nat, exact: bool)
    requires UtcAtMost(proposedAt, asOf - window * SECOND)
    requires exact ==> asOf % SECOND != 0
    ensures WindowStart(proposedAt, exact) + window * SECOND <= asOf
  {
    var cutoff := asOf - window * SECOND;
    assert cutoff % SECOND == asOf % SECOND;
    DueEarlyIff(proposedAt, cutoff);
  }

  lemma CallsStaySane(q: Queue, grants: seq<Grant>, e: Event)
    requires Enabled(q, e) && forall p | p in q.calls :: Sane(q.calls[p], q.now)
    ensures var t := Step(q, grants, e); forall p | p in t.calls :: Sane(t.calls[p], t.now)
  {
  }

  lemma DrainKeepsCooling(q: Queue, grants: seq<Grant>, d: nat, c: Choice, window: nat, exact: bool)
    requires CanDrain(q, d, c) && Known(q) && Cooling(q, window, exact)
    ensures Cooling(DrainStep(q, grants, d, c), window, exact)
  {
    var x, t := q.drainers[d], DrainStep(q, grants, d, c);
    assert Ready(q.rows, x);
    DrainSteady(q, grants, x, c);
    DrainsNeverWait(q.rows, x, c);
    if Sends(x, c) {
      assert t.dispatches == q.dispatches + [DispatchOf(q, x, d)];
      assert RowCooled(q.rows[x.job.id], q.now, window, exact);
    }
    forall i | 0 <= i < |t.rows| ensures RowCooled(t.rows[i], t.now, window, exact) {
      assert RowCooled(q.rows[i], q.now, window, exact);
    }
  }

  lemma DrainsNeverWait(rows: seq<Row>, x: Drainer, c: Choice)
    requires Ready(rows, x)
    ensures var t := RowsAfter(rows, x, c);
            |t| == |rows| && forall i | 0 <= i < |rows| :: Waits(t[i]) == Waits(rows[i])
  {
  }

  lemma OthersCool(q: Queue, grants: seq<Grant>, e: Event, window: nat, exact: bool, i: nat)
    requires Enabled(q, e) && !e.Drain? && Cooling(q, window, exact) && Ticks(e, window, exact)
    requires i < |Step(q, grants, e).rows|
    ensures RowCooled(Step(q, grants, e).rows[i], Step(q, grants, e).now, window, exact)
  {
    var t := Step(q, grants, e);
    OthersSpare(q, grants, e);
    OthersNeverApply(q, grants, e);
    if i < |q.rows| {
      assert RowCooled(q.rows[i], q.now, window, exact);
      if Waits(q.rows[i]) && !Waits(t.rows[i]) {
        DueIsCooled(q.rows[i].spec.proposedAt, e.asOf, window, exact);
      }
    } else if e.Continue? {
      assert Sane(q.calls[e.p], q.now);
    }
  }

  lemma OthersKeepCooling(q: Queue, grants: seq<Grant>, e: Event, window: nat, exact: bool)
    requires Enabled(q, e) && !e.Drain? && Cooling(q, window, exact) && Ticks(e, window, exact)
    ensures Cooling(Step(q, grants, e), window, exact)
  {
    var t := Step(q, grants, e);
    OthersSpare(q, grants, e);
    OthersNeverApply(q, grants, e);
    CallsStaySane(q, grants, e);
    forall i | 0 <= i < |t.rows| ensures RowCooled(t.rows[i], t.now, window, exact) {
      OthersCool(q, grants, e, window, exact, i);
    }
  }

  lemma StepKeepsCooling(q: Queue, grants: seq<Grant>, e: Event, window: nat, exact: bool)
    requires Enabled(q, e) && Known(q) && Cooling(q, window, exact) && Ticks(e, window, exact)
    ensures Cooling(Step(q, grants, e), window, exact)
  {
    if e.Drain? {
      DrainKeepsCooling(q, grants, e.d, e.choice, window, exact);
    } else {
      OthersKeepCooling(q, grants, e, window, exact);
    }
  }

  ghost predicate RunTicks(ts: seq<Tick>, window: nat, exact: bool) {
    forall k | 0 <= k < |ts| :: Ticks(ts[k].event, window, exact)
  }

  lemma {:induction false} RunKeepsCooling(q: Queue, ts: seq<Tick>, window: nat, exact: bool)
    requires Runs(q, ts) && Known(q) && Cooling(q, window, exact) && RunTicks(ts, window, exact)
    ensures Cooling(After(q, ts), window, exact)
    decreases |ts|
  {
    if ts != [] {
      assert Ticks(ts[0].event, window, exact);
      StepKeepsKnown(q, ts[0].grants, ts[0].event);
      StepKeepsCooling(q, ts[0].grants, ts[0].event, window, exact);
      assert RunTicks(ts[1..], window, exact) by {
        forall k | 0 <= k < |ts| - 1 ensures Ticks(ts[1..][k].event, window, exact) {
          assert Ticks(ts[k + 1].event, window, exact);
        }
      }
      RunKeepsCooling(Step(q, ts[0].grants, ts[0].event), ts[1..], window, exact);
    }
  }

  /** No send is dispatched before its window is over, counted from the second of its proposal, and
      from the moment of it when no ticker reads the clock on a whole second. */
  lemma SendsWaitOut(q: Queue, ts: seq<Tick>, window: nat, exact: bool, k: nat)
    requires Runs(q, ts) && Known(q) && Cooling(q, window, exact) && RunTicks(ts, window, exact)
    requires k < |After(q, ts).dispatches| && IsSend(After(q, ts).dispatches[k].spec)
    ensures var s := After(q, ts).dispatches[k];
            s.spec.proposedAt <= s.at && WindowStart(s.spec.proposedAt, exact) + window * SECOND <= s.at
  {
    RunKeepsCooling(q, ts, window, exact);
    assert SentCooled(After(q, ts).dispatches[k], After(q, ts).now, window, exact);
  }

  lemma StepKeepsCancelled(q: Queue, grants: seq<Grant>, e: Event, id: nat)
    requires Enabled(q, e) && Known(q) && id < |q.rows| && q.rows[id].status.Cancelled?
    ensures var t := Step(q, grants, e); id < |t.rows| && t.rows[id] == q.rows[id]
  {
    if e.Drain? {
      var x := q.drainers[e.d];
      assert Ready(q.rows, x);
      DrainSteady(q, grants, x, e.choice);
    } else {
      OthersSpare(q, grants, e);
    }
  }

  /** A cancelled row is never written again and is never dispatched, before or after the cancel,
      whatever grants, replays and drainers do. */
  lemma {:induction false} CancelledStaysUnsent(q: Queue, ts: seq<Tick>, id: nat, window: nat, exact: bool)
    requires Runs(q, ts) && Known(q) && Cooling(q, window, exact) && RunTicks(ts, window, exact)
    requires id < |q.rows| && q.rows[id].status.Cancelled?
    ensures var t := After(q, ts); id < |t.rows| && t.rows[id] == q.rows[id] && !WasSent(t.dispatches, id)
    decreases |ts|
  {
    RunKeepsCooling(q, ts, window, exact);
    CancelledKept(q, ts, id);
  }

  lemma {:induction false} CancelledKept(q: Queue, ts: seq<Tick>, id: nat)
    requires Runs(q, ts) && Known(q) && id < |q.rows| && q.rows[id].status.Cancelled?
    ensures var t := After(q, ts); id < |t.rows| && t.rows[id] == q.rows[id]
    decreases |ts|
  {
    if ts != [] {
      StepKeepsKnown(q, ts[0].grants, ts[0].event);
      StepKeepsCancelled(q, ts[0].grants, ts[0].event, id);
      CancelledKept(Step(q, ts[0].grants, ts[0].event), ts[1..], id);
    }
  }
}
