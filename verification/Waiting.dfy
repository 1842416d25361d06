/** Where a proposed row starts, and what it waits for, over whole runs: an action of Tier 2 waits until a
    grant of its type is minted. */
module Waiting {
  import opened Actions
  import opened Tables
  import S = System
  import A = Approvals
  import Q = Queue
  import O = Ownership
  import R = Reverts
  import T = RoundTrip

  predicate HasGrant(grants: seq<Grant>, a: ActionType) { exists g | 0 <= g < |grants| :: grants[g].action == a }

  predicate IsFree(grants: seq<Grant>, a: ActionType) { TierFor(a) == 2 ==> HasGrant(grants, a) }

  predicate RowOk(grants: seq<Grant>, r: Row) { r.status.PendingGrant? || IsFree(grants, r.spec.action) }

  predicate JobOk(grants: seq<Grant>, x: Q.Drainer) { x.Working? ==> IsFree(grants, x.job.spec.action) }

  /** The reverter queues no action of Tier 2. */
  predicate CallOk(c: Q.Call) {
    c.Resolved? || c.Claiming? || c.Inverting? ==> TierFor(c.inverse.action) == 1
  }

  ghost predicate Waits(q: Q.Queue, grants: seq<Grant>) {
    && (forall i | 0 <= i < |q.rows| :: RowOk(grants, q.rows[i]))
    && (forall d | 0 <= d < |q.drainers| :: JobOk(grants, q.drainers[d]))
    && (forall p | p in q.calls :: CallOk(q.calls[p]))
  }

  /** Grants are only added. */
  predicate Grows(grants: seq<Grant>, later: seq<Grant>) {
    |grants| <= |later| && forall g | 0 <= g < |grants| :: later[g].action == grants[g].action
  }

  lemma StaysFree(grants: seq<Grant>, later: seq<Grant>, a: ActionType)
    requires Grows(grants, later) && IsFree(grants, a)
    ensures IsFree(later, a)
  {
    if TierFor(a) == 2 {
      var g :| 0 <= g < |grants| && grants[g].action == a;
      assert later[g].action == a;
    }
  }

  /** How a row stops waiting, and how one begins. */
  lemma RowsFrame(q: Q.Queue, grants: seq<Grant>, e: Q.Event, i: nat)
    requires Q.Enabled(q, e) && O.Known(q) && i < |Q.Step(q, grants, e).rows|
    ensures var r := Q.Step(q, grants, e).rows[i];
            || r.status.PendingGrant?
            || (i < |q.rows| && r.spec == q.rows[i].spec && !q.rows[i].status.PendingGrant?)
            || (i < |q.rows| && r.spec == q.rows[i].spec && e == Q.Promote(r.spec.action))
            || (e.Drain? && q.drainers[e.d].Working? && q.drainers[e.d].job.spec == r.spec)
            || (e.Propose? && TierFor(r.spec.action) != 2)
            || (e.Continue? && q.calls[e.p].Inverting? && r.spec == q.calls[e.p].inverse)
  {
    R.SpecsFrame(q, grants, e);
    if e.Drain? { assert O.Ready(q.rows, q.drainers[e.d]); }
    hide Q.DrainNext, Q.CallNext, Q.CanTake, Q.Records, Q.Sends, Q.Moves, Q.Lapses, Q.Clears, O.Ready;
  }

  lemma SameSpec(q: Q.Queue, grants: seq<Grant>, x: Q.Drainer, c: Q.Choice, y: Q.Drainer)
    requires O.Follows(q, grants, x, c, y) && x.Working? && y.Working?
    ensures y.job.spec == x.job.spec
  {
  }

  lemma ClaimsPending(q: Q.Queue, grants: seq<Grant>, x: Q.Drainer, c: Q.Choice, y: Q.Drainer)
    requires O.Follows(q, grants, x, c, y) && O.BatchKnown(q.rows, x) && !x.Working? && y.Working?
    ensures exists i | 0 <= i < |q.rows| :: y.job.spec == q.rows[i].spec && !q.rows[i].status.PendingGrant?
  {
    var id := x.batch[0].id;
    assert y.job.spec == q.rows[id].spec && q.rows[id].status.Pending?;
  }

  lemma JobsFrame(q: Q.Queue, grants: seq<Grant>, e: Q.Event, d: nat)
    requires Q.Enabled(q, e) && O.Known(q) && d < |Q.Step(q, grants, e).drainers|
    ensures d < |q.drainers|
    ensures var y := Q.Step(q, grants, e).drainers[d];
            y.Working? ==>
              || (q.drainers[d].Working? && y.job.spec == q.drainers[d].job.spec)
              || exists i | 0 <= i < |q.rows| :: y.job.spec == q.rows[i].spec && !q.rows[i].status.PendingGrant?
  {
    T.OthersKeepDrainers(q, grants, e);
    var x, y := q.drainers[d], Q.Step(q, grants, e).drainers[d];
    if e.Drain? && d == e.d {
      assert O.Ready(q.rows, x) && O.BatchKnown(q.rows, x);
      assert y == Q.DrainNext(q, grants, x, e.choice);
      O.DrainFollows(q, grants, x, e.choice);
      hide *;
      if y.Working? {
        if x.Working? { SameSpec(q, grants, x, e.choice, y); } else { ClaimsPending(q, grants, x, e.choice, y); }
      }
    }
  }

  lemma CallsFrame(q: Q.Queue, grants: seq<Grant>, e: Q.Event, p: nat)
    requires Q.Enabled(q, e) && p in Q.Step(q, grants, e).calls
    requires forall r | r in q.calls :: CallOk(q.calls[r])
    ensures CallOk(Q.Step(q, grants, e).calls[p])
  {
  }

  lemma QueueKeepsWaits(q: Q.Queue, grants: seq<Grant>, later: seq<Grant>, e: Q.Event)
    requires Q.Enabled(q, e) && O.Known(q) && Waits(q, grants) && Grows(grants, later)
    requires e.Promote? ==> HasGrant(later, e.action)
    ensures Waits(Q.Step(q, grants, e), later)
  {
    var t := Q.Step(q, grants, e);
    forall i | 0 <= i < |t.rows| ensures RowOk(later, t.rows[i]) {
      RowsFrame(q, grants, e, i);
      if i < |q.rows| && RowOk(grants, q.rows[i]) && !q.rows[i].status.PendingGrant? {
        StaysFree(grants, later, q.rows[i].spec.action);
      }
      if e.Drain? && q.drainers[e.d].Working? {
        assert JobOk(grants, q.drainers[e.d]);
        StaysFree(grants, later, q.drainers[e.d].job.spec.action);
      }
      if e.Continue? { assert CallOk(q.calls[e.p]); }
    }
    forall d | 0 <= d < |t.drainers| ensures JobOk(later, t.drainers[d]) {
      JobsFrame(q, grants, e, d);
      assert JobOk(grants, q.drainers[d]);
      if t.drainers[d].Working? { StaysFree(grants, later, t.drainers[d].job.spec.action); }
    }
    forall p | p in t.calls ensures CallOk(t.calls[p]) { CallsFrame(q, grants, e, p); }
  }

  lemma GrantsKeepWaits(q: Q.Queue, grants: seq<Grant>, later: seq<Grant>)
    requires Waits(q, grants) && Grows(grants, later)
    ensures Waits(q, later)
  {
    forall i | 0 <= i < |q.rows| ensures RowOk(later, q.rows[i]) {
      if IsFree(grants, q.rows[i].spec.action) { StaysFree(grants, later, q.rows[i].spec.action); }
    }
    forall d | 0 <= d < |q.drainers| ensures JobOk(later, q.drainers[d]) {
      if q.drainers[d].Working? { StaysFree(grants, later, q.drainers[d].job.spec.action); }
    }
  }

  /** A promotion goes with the insert of a grant of its type. */
  lemma PromotedByMint(s: S.Sys, e: S.Event)
    requires S.Enabled(s, e)
    ensures Grows(s.auth.grants, S.Step(s, e).auth.grants)
    ensures var q := S.QueueEvent(s, e);
            q.Some? && q.value.Promote? ==> HasGrant(S.Step(s, e).auth.grants, q.value.action)
  {
    var later := S.GrantsAfter(s.auth, e, s.queue.now);
    if S.Mints(s.auth, e, S.Consumed) { assert later[|s.auth.grants|].action == s.auth.mints[e.m].action; }
  }

  lemma StepKeepsWaits(s: S.Sys, e: S.Event)
    requires S.Enabled(s, e) && O.Known(s.queue) && Waits(s.queue, s.auth.grants)
    ensures Waits(S.Step(s, e).queue, S.Step(s, e).auth.grants)
  {
    PromotedByMint(s, e);
    S.QueueSide(s, e);
    hide S.Step, S.Enabled, Waits, Grows, HasGrant;
    var q, later := S.QueueEvent(s, e), S.Step(s, e).auth.grants;
    if q.Some? {
      QueueKeepsWaits(s.queue, s.auth.grants, later, q.value);
    } else {
      GrantsKeepWaits(s.queue, s.auth.grants, later);
    }
  }

  lemma {:induction false} RunKeepsWaits(s: S.Sys, es: seq<S.Event>)
    requires S.Runs(s, es) && A.Invariant(s) && Waits(s.queue, s.auth.grants)
    ensures Waits(S.After(s, es).queue, S.After(s, es).auth.grants)
    decreases |es|
  {
    if es != [] {
      hide S.Step, S.Enabled, Waits;
      A.StepKeepsInvariant(s, es[0]);
      StepKeepsWaits(s, es[0]);
      RunKeepsWaits(S.Step(s, es[0]), es[1..]);
    }
  }

  /** In every run from an empty database a row of a Tier-2 type is `pending_grant`, or a grant of its type
      has been minted; so it was proposed to wait, and nothing but a mint can have set it going. */
  lemma TierTwoWaitsForAGrant(s: S.Sys, es: seq<S.Event>, id: nat)
    requires S.Runs(s, es) && A.IsEmpty(s) && id < |S.After(s, es).queue.rows|
    requires TierFor(S.After(s, es).queue.rows[id].spec.action) == 2
    ensures var t := S.After(s, es);
            t.queue.rows[id].status.PendingGrant? || HasGrant(t.auth.grants, t.queue.rows[id].spec.action)
  {
    A.StartIsSound(s);
    RunKeepsWaits(s, es);
    assert RowOk(S.After(s, es).auth.grants, S.After(s, es).queue.rows[id]);
  }
}
