/** Reverting: claim before insert, so one inverse row per action, and only the reverter marks rows. */
module Reverts {
  import opened Actions
  import opened Tables
  import opened Queue
  import opened Ownership

  predicate IsReverted(history: map<nat, History>, id: nat) {
    id in history && history[id].revertedAt.Some?
  }

  predicate HasInverse(xs: seq<Inverse>, id: nat) {
    exists k | 0 <= k < |xs| :: xs[k].of == id
  }

  predicate InvertedOnce(xs: seq<Inverse>) {
    forall i, j | 0 <= i < j < |xs| :: xs[i].of != xs[j].of
  }

  /** A call past its claim is the only one for its action and no inverse is queued yet. */
  ghost predicate Exclusive(calls: map<nat, Call>, history: map<nat, History>, xs: seq<Inverse>) {
    && InvertedOnce(xs)
    && (forall k | 0 <= k < |xs| :: IsReverted(history, xs[k].of))
    && (forall p | p in calls && calls[p].Inverting? ::
          IsReverted(history, calls[p].id) && !HasInverse(xs, calls[p].id))
    && (forall p, r | p in calls && r in calls && p != r && calls[p].Inverting? && calls[r].Inverting? ::
          calls[p].id != calls[r].id)
  }

  lemma StepKeepsExclusive(q: Queue, grants: seq<Grant>, e: Event)
    requires Enabled(q, e) && Exclusive(q.calls, q.history, q.inverses)
    ensures var t := Step(q, grants, e); Exclusive(t.calls, t.history, t.inverses)
  {
    hide RowsAfter, DrainNext, CanTake, Sends, Moves, Lapses, CallNext, RowsAfterCall, RowsAfterEvent, WasApplied;
    var t := Step(q, grants, e);
    if e.Continue? {
      hide CallStep;
      CallKeepsExclusive(q, grants, e.p);
    } else {
      assert t.inverses == q.inverses;
      assert forall id | id in q.history :: id in t.history && t.history[id] == q.history[id];
      assert forall p | p in t.calls && t.calls[p].Inverting? :: p in q.calls && t.calls[p] == q.calls[p];
    }
  }

  lemma CallKeepsExclusive(q: Queue, grants: seq<Grant>, p: nat)
    requires p in q.calls && Exclusive(q.calls, q.history, q.inverses)
    ensures var t := CallStep(q, grants, p); Exclusive(t.calls, t.history, t.inverses)
  {
    var c, t := q.calls[p], CallStep(q, grants, p);
    assert forall id | IsReverted(q.history, id) :: IsReverted(t.history, id);
    assert forall r | r in t.calls && r != p :: r in q.calls && t.calls[r] == q.calls[r];
    if c.Claiming? && IsUnreverted(q.history, c.id) {
      assert !HasInverse(q.inverses, c.id);
      assert IsReverted(t.history, c.id);
    }
    if c.Inverting? {
      assert t.inverses == q.inverses + [Inverse(c.id, |q.rows|)];
      forall r | r in t.calls && t.calls[r].Inverting? ensures !HasInverse(t.inverses, t.calls[r].id) {
        assert r != p && q.calls[r].id != c.id && !HasInverse(q.inverses, q.calls[r].id);
      }
    }
  }

  /** However many reverts of it race, and whether or not it had a history row, an action gets at
      most one inverse row. The start needs nothing but an empty call table. */
  lemma {:induction false} AtMostOneInverse(q: Queue, ts: seq<Tick>)
    requires Runs(q, ts) && q.calls == map[] && q.inverses == []
    ensures InvertedOnce(After(q, ts).inverses)
  {
    RunKeepsExclusive(q, ts);
  }

  lemma {:induction false} RunKeepsExclusive(q: Queue, ts: seq<Tick>)
    requires Runs(q, ts) && Exclusive(q.calls, q.history, q.inverses)
    ensures var t := After(q, ts); Exclusive(t.calls, t.history, t.inverses)
    decreases |ts|
  {
    if ts != [] {
      StepKeepsExclusive(q, ts[0].grants, ts[0].event);
      RunKeepsExclusive(Step(q, ts[0].grants, ts[0].event), ts[1..]);
    }
  }

  // ----- the reserved marker -----

  predicate IsInverseRow(xs: seq<Inverse>, row: nat) {
    exists k | 0 <= k < |xs| :: xs[k].row == row
  }

  predicate MarkedMove(s: Spec) { HasRevertMarker(s.payload) ==> IsMoveFamily(s.action) }

  predicate CallMarked(c: Call) {
    && (c.Reverting? ==> MarkedMove(c.spec))
    && (c.Resolved? || c.Claiming? || c.Inverting? ==> MarkedMove(c.inverse))
  }

  ghost predicate Provenance(q: Queue) {
    && (forall i | 0 <= i < |q.rows| ::
          MarkedMove(q.rows[i].spec) && (HasRevertMarker(q.rows[i].spec.payload) ==> IsInverseRow(q.inverses, i)))
    && (forall p | p in q.calls :: CallMarked(q.calls[p]))
  }

  lemma InverseStaysMarked(s: Spec, id: nat, h: Option<History>, now: int)
    requires MarkedMove(s) && InverseOf(s, id, h, now).Some?
    ensures MarkedMove(InverseOf(s, id, h, now).value)
  {
  }

  lemma CallKeepsMarked(q: Queue, grants: seq<Grant>, c: Call)
    requires CallMarked(c)
    ensures CallNext(q, grants, c).Some? ==> CallMarked(CallNext(q, grants, c).value)
  {
    if c.Reverting? && CallNext(q, grants, c).Some? {
      InverseStaysMarked(c.spec, c.id, HistoryOf(q.history, c.id), q.now);
    }
  }

  lemma SpecsFrame(q: Queue, grants: seq<Grant>, e: Event)
    requires Enabled(q, e) && Known(q)
    ensures var t := Step(q, grants, e);
            && |q.rows| <= |t.rows| <= |q.rows| + 1
            && (forall i | 0 <= i < |q.rows| :: t.rows[i].spec == q.rows[i].spec)
            && (|t.rows| > |q.rows| ==> e.Propose? || (e.Continue? && q.calls[e.p].Inverting?))
  {
    if e.Drain? {
      var x := q.drainers[e.d];
      assert Ready(q.rows, x);
      DrainSteady(q, grants, x, e.choice);
    } else {
      OthersSpare(q, grants, e);
    }
  }

  lemma StepKeepsProvenance(q: Queue, grants: seq<Grant>, e: Event)
    requires Enabled(q, e) && Known(q) && Provenance(q)
    ensures Provenance(Step(q, grants, e))
  {
    var t := Step(q, grants, e);
    SpecsFrame(q, grants, e);
    assert forall i | IsInverseRow(q.inverses, i) :: IsInverseRow(t.inverses, i) by { InversesGrow(q, grants, e); }
    if e.Continue? && q.calls[e.p].Inverting? {
      assert CallMarked(q.calls[e.p]);
      assert t.inverses[|q.inverses|].row == |q.rows|;
    }
    forall p | p in t.calls ensures CallMarked(t.calls[p]) {
      if e.Continue? && p == e.p {
        CallKeepsMarked(q, grants, q.calls[p]);
      } else if e.Revert? && p == e.p {
        assert MarkedMove(q.rows[e.id].spec);
      }
    }
  }

  lemma InversesGrow(q: Queue, grants: seq<Grant>, e: Event)
    requires Enabled(q, e)
    ensures q.inverses <= Step(q, grants, e).inverses
  {
  }

  /** `propose_action` refuses the reserved key, so every row that carries it was queued by the
      reverter, as the inverse of one action, and is a move. */
  lemma {:induction false} MarkersComeFromTheReverter(q: Queue, ts: seq<Tick>, i: nat)
    requires Runs(q, ts) && Known(q) && Provenance(q)
    requires i < |After(q, ts).rows| && HasRevertMarker(After(q, ts).rows[i].spec.payload)
    ensures IsInverseRow(After(q, ts).inverses, i) && IsRevertRow(After(q, ts).rows[i].spec)
  {
    RunKeepsProvenance(q, ts);
    assert MarkedMove(After(q, ts).rows[i].spec);
  }

  lemma {:induction false} RunKeepsProvenance(q: Queue, ts: seq<Tick>)
    requires Runs(q, ts) && Known(q) && Provenance(q)
    ensures Provenance(After(q, ts))
    decreases |ts|
  {
    if ts != [] {
      StepKeepsKnown(q, ts[0].grants, ts[0].event);
      StepKeepsProvenance(q, ts[0].grants, ts[0].event);
      RunKeepsProvenance(Step(q, ts[0].grants, ts[0].event), ts[1..]);
    }
  }
}
