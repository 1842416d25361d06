/** What a replay can still do for a failed row. */
module Replays {
  import opened Actions
  import opened Timestamps
  import opened Tables
  import opened Queue
  import opened Dispatches
  import opened Reach
  import opened Flights
  import Cap = SendCap
  import S = System
  import A = Approvals
  import W = Lines

  // ----- getting at one row among many -----

  function PendingRows(rows: seq<Row>): nat {
    if rows == [] then 0
    else PendingRows(rows[..|rows| - 1]) + if rows[|rows| - 1].status.Pending? then 1 else 0
  }

  lemma {:induction false} PendingUpdate(rows: seq<Row>, i: nat, r: Row)
    requires i < |rows| && rows[i].status.Pending? && !r.status.Pending?
    ensures PendingRows(rows[i := r]) < PendingRows(rows)
  {
    var n := |rows| - 1;
    if i < n {
      assert rows[i := r][..n] == rows[..n][i := r];
      PendingUpdate(rows[..n], i, r);
    } else {
      assert rows[i := r][..n] == rows[..n];
    }
  }

  lemma SomeRowIsPending(rows: seq<Row>, batch: seq<Picked>, id: nat)
    requires IsDrainable(rows, batch, BATCH_SIZE) && id < |rows| && rows[id].status.Pending?
    ensures batch != [] && IsClaimable(rows, batch[0]) && rows[batch[0].id].spec == batch[0].spec
  {
    assert |batch| < BATCH_SIZE ==> InBatch(batch, id);
  }

  /** What is in the way of the row may change; the world and the row's spec do not. */
  ghost predicate SameBut(q: Queue, t: Queue, id: nat) {
    && t == q.(drainers := t.drainers, rows := t.rows) && |t.drainers| == |q.drainers| && |t.rows| == |q.rows|
    && id < |q.rows| && t.rows[id].spec == q.rows[id].spec
    && forall m :: BudgetConsumed(t.rows, m) == BudgetConsumed(q.rows, m)
  }

  lemma ClaimKeepsCounts(rows: seq<Row>, i: nat)
    requires i < |rows|
    ensures forall m :: BudgetConsumed(rows[i := rows[i].(status := Draining)], m) == BudgetConsumed(rows, m)
  {
    forall m ensures BudgetConsumed(rows[i := rows[i].(status := Draining)], m) == BudgetConsumed(rows, m) {
      Cap.BudgetUpdate(rows, i, rows[i].(status := Draining), m);
    }
  }

  /** Drainer `d` claims the first row of a fresh batch. */
  lemma ClaimFirst(o: Queue, grants: seq<Grant>, q: Queue, d: nat, id: nat) returns (t: Queue)
    requires Reaches(o, grants, q) && d < |q.drainers| && q.drainers[d].Idle? && !q.paused
    requires id < |q.rows| && q.rows[id].status.Pending?
    ensures Reaches(o, grants, t) && SameBut(q, t, id) && t.drainers[d].Working? && t.drainers[d].stage.Claimed?
    ensures var j := t.drainers[d].job;
            && j.id < |q.rows| && q.rows[j.id].status.Pending? && j == StartJob(Picked(j.id, q.rows[j.id].spec))
            && t.rows == q.rows[j.id := q.rows[j.id].(status := Draining)]
  {
    hide Reaches, IsDrainable, BudgetConsumed;
    var batch := SelectDrainable(q.rows, BATCH_SIZE);
    SomeRowIsPending(q.rows, batch, id);
    Poll(o, grants, q, d, batch);
    var r := At(q, d, Looping(batch, 0));
    Claim(o, grants, r, d);
    t := AfterClaim(r, d);
    ClaimKeepsCounts(q.rows, batch[0].id);
  }

  /** Whatever comes first in drain order, a run gets drainer `d` to this row: the worker dies in
      each of the others. */
  lemma {:induction false} ClaimThisRow(o: Queue, grants: seq<Grant>, q: Queue, d: nat, id: nat) returns (t: Queue)
    requires Reaches(o, grants, q) && d < |q.drainers| && q.drainers[d].Idle? && !q.paused
    requires id < |q.rows| && q.rows[id].status.Pending?
    ensures Reaches(o, grants, t) && SameBut(q, t, id) && t.drainers[d].Working? && t.drainers[d].stage.Claimed?
    ensures t.drainers[d].job == StartJob(Picked(id, q.rows[id].spec))
    decreases PendingRows(q.rows)
  {
    hide Reaches, BudgetConsumed;
    t := ClaimFirst(o, grants, q, d, id);
    var i := t.drainers[d].job.id;
    if i != id {
      PendingUpdate(q.rows, i, t.rows[i]);
      Die(o, grants, t, d);
      t := ClaimThisRow(o, grants, At(t, d, Idle), d, id);
    }
  }

  lemma Die(o: Queue, grants: seq<Grant>, q: Queue, d: nat)
    requires Reaches(o, grants, q) && d < |q.drainers| && !q.drainers[d].Idle?
    ensures Reaches(o, grants, At(q, d, Idle))
  {
    hide Reaches;
    QuietStep(o, grants, q, d, Crash);
  }

  // ----- the reset -----

  /** As things stand, `replay_action` accepts the row and the drainer's checks would pass it. */
  predicate CouldPass(q: Queue, grants: seq<Grant>, id: nat) {
    && IsReplayable(q, id) && IsFit(q, grants, q.rows[id].spec)
    && !(IsMoveFamily(q.rows[id].spec.action) && q.rows[id].spec.emailId.Some? &&
         q.rows[id].spec.emailId.value in q.emails && q.emails[q.rows[id].spec.emailId.value].deleted)
  }

  /** The queue with call `p` at `c`. */
  function Calling(q: Queue, p: nat, c: Call): Queue { q.(calls := q.calls[p := c]) }

  lemma CallOnward(o: Queue, grants: seq<Grant>, q: Queue, p: nat, c: Call)
    requires Reaches(o, grants, Calling(q, p, c)) && (c.Replaying? || c.Seeking? || c.Granted?)
    requires CallNext(q, grants, c).Some?
    ensures Reaches(o, grants, Calling(q, p, CallNext(q, grants, c).value))
  {
    hide Reaches;
    var t := Calling(q, p, c);
    assert CallNext(t, grants, c) == CallNext(q, grants, c);
    assert CallStep(t, grants, p) == Calling(q, p, CallNext(q, grants, c).value);
    Onward(o, grants, t, Continue(p));
  }

  /** PENDING_ACTION_REPLAY_RESET */
  function AfterReset(q: Queue, id: nat): Queue
    requires id < |q.rows|
  {
    q.(rows := q.rows[id := Reset(q.rows[id])], restamps := Restamped(q, id, None))
  }

  lemma CallResets(o: Queue, grants: seq<Grant>, q: Queue, p: nat, id: nat)
    requires Reaches(o, grants, Calling(q, p, Resetting(id))) && p !in q.calls
    requires id < |q.rows| && q.rows[id].status.Failed?
    ensures Reaches(o, grants, AfterReset(q, id))
  {
    hide Reaches;
    var t := Calling(q, p, Resetting(id));
    assert t.calls - {p} == q.calls;
    assert CallStep(t, grants, p) == AfterReset(q, id);
    Onward(o, grants, t, Continue(p));
  }

  lemma Replayed(o: Queue, grants: seq<Grant>, q: Queue, id: nat, p: nat)
    requires Reaches(o, grants, q) && CouldPass(q, grants, id) && p !in q.calls
    ensures Reaches(o, grants, AfterReset(q, id))
  {
    hide Reaches, VetFailure, CanAccept, BudgetConsumed, FindGrant;
    var s := q.rows[id].spec;
    Onward(o, grants, q, Replay(p, id));
    CallOnward(o, grants, q, p, Replaying(id, s));
    if RequiresGrant(s.action) { CallOnward(o, grants, q, p, Seeking(id, s, q.now)); }
    CallOnward(o, grants, q, p, Granted(id, s));
    CallResets(o, grants, q, p, id);
  }

  lemma ResetKeepsFit(q: Queue, t: Queue, grants: seq<Grant>, id: nat)
    requires id < |q.rows| && IsFit(q, grants, q.rows[id].spec)
    requires t == AfterReset(q, id)
    ensures IsFit(t, grants, q.rows[id].spec)
  {
    Cap.BudgetUpdate(q.rows, id, Reset(q.rows[id]), Midnight(q.now));
  }

  // ----- when a replay can rescue a row -----

  predicate AtRest(q: Queue, id: nat) { forall d | 0 <= d < |q.drainers| :: NotWorkingOn(q.drainers[d], id) }

  predicate NotWorkingOn(x: Drainer, id: nat) { x.Working? ==> x.job.id != id }

  ghost predicate CanBeApplied(q: Queue, grants: seq<Grant>, id: nat) {
    exists t :: Reaches(q, grants, t) && IsApplied(t.rows, id)
  }

  /** What the checks read. */
  lemma FitFrame(q: Queue, t: Queue, grants: seq<Grant>, s: Spec)
    requires IsFit(q, grants, s) && t.now == q.now && t.emails == q.emails && t.mailbox == q.mailbox
    requires BudgetConsumed(t.rows, Midnight(q.now)) == BudgetConsumed(q.rows, Midnight(q.now))
    ensures IsFit(t, grants, s)
  {
  }

  lemma Rescued(q: Queue, grants: seq<Grant>, id: nat, p: nat)
    requires CouldPass(q, grants, id) && p !in q.calls && |q.drainers| > 0 && id !in q.history
    ensures CanBeApplied(q, grants, id)
  {
    hide Reaches, IsFit, BudgetConsumed;
    var s := q.rows[id].spec;
    Stay(q, grants);
    Onward(q, grants, q, Resume);
    var t := q.(paused := false);
    FitFrame(q, t, grants, s);
    Replayed(q, grants, t, id, p);
    ResetKeepsFit(t, AfterReset(t, id), grants, id);
    t := AfterReset(t, id);
    if !t.drainers[0].Idle? {
      Die(q, grants, t, 0);
      FitFrame(t, At(t, 0, Idle), grants, s);
      t := At(t, 0, Idle);
    }
    var u := ClaimThisRow(q, grants, t, 0, id);
    FitFrame(t, u, grants, s);
    Applied(q, grants, u, 0, id);
  }

  lemma Applied(o: Queue, grants: seq<Grant>, q: Queue, d: nat, id: nat)
    requires Reaches(o, grants, q) && d < |q.drainers| && q.drainers[d].Working? && q.drainers[d].stage.Claimed?
    requires id < |q.rows| && q.drainers[d].job == StartJob(Picked(id, q.rows[id].spec))
    requires !q.paused && IsFit(q, grants, q.rows[id].spec) && id !in q.history
    ensures CanBeApplied(o, grants, id)
  {
    hide Reaches;
    var t := ReachAdapter(o, grants, q, d);
    Land(o, grants, t, d);
    assert IsApplied(Landed(t, d).rows, id);
  }

  /** A failed row that would pass everything else can be replayed to `applied` exactly when it has no
      history entry yet. */
  lemma ReplayRescuesIff(q: Queue, grants: seq<Grant>, id: nat, p: nat)
    requires CouldPass(q, grants, id) && AtRest(q, id) && p !in q.calls && |q.drainers| > 0
    ensures CanBeApplied(q, grants, id) <==> id !in q.history
  {
    if id !in q.history {
      Rescued(q, grants, id, p);
    } else {
      assert Spent(q, id);
      forall t | Reaches(q, grants, t) ensures !IsApplied(t.rows, id) {
        var ts := ReachedByRun(q, grants, t);
        ReplayAfterDispatchIsFutile(q, ts, id);
      }
    }
  }

  // ----- a run to a row that is past rescue -----

  function ReadMark(): Spec { Spec(Some("m"), MarkRead, 1, map[], 0, None) }

  lemma ProposeRead(q: Queue)
    requires q == W.Nothing(1, 0).queue
    ensures Reaches(q, [], q.(rows := [NewRow(ReadMark(), Status.Pending)]))
  {
    hide Reaches;
    Stay(q, []);
    assert Step(q, [], Propose(ReadMark())) == q.(rows := [NewRow(ReadMark(), Status.Pending)]);
    Onward(q, [], q, Propose(ReadMark()));
  }

  /** Graph refuses the first row there is. */
  lemma RefusedOnce(q: Queue) returns (t: Queue)
    requires q == W.Nothing(1, 0).queue
    ensures Reaches(q, [], t) && t.calls == map[] && t.now == 0 && t.emails == q.emails && t.drainers[..] == t.drainers
    ensures |t.rows| == 1 && t.rows[0] == MarkFailed(NewRow(ReadMark(), Draining), "provider_error", 0, false)
    ensures |t.drainers| == 1 && t.drainers[0].Looping? && 0 in t.history
    ensures |t.dispatches| == 1 && t.dispatches[0].id == 0
  {
    hide Reaches;
    var s := ReadMark();
    ProposeRead(q);
    t := q.(rows := [NewRow(s, Status.Pending)]);
    t := W.ClaimNextInLine(q, [], t, 0, 0, s);
    assert IsFit(t, [], s);
    t := ReachAdapter(q, [], t, 0);
    Refuse(q, [], t, 0);
    t := AfterRefusal(t, 0, "provider_error");
  }

  /** The replay of the row is accepted, and in vain. */
  predicate IsFutile(q: Queue, id: nat) {
    CouldPass(q, [], id) && AtRest(q, id) && id in q.history && WasSent(q.dispatches, id)
  }

  /** A run from an empty database to a failed row that replay accepts and no run ever applies. */
  lemma FutileReplayIsReachable()
    ensures exists s: S.Sys, es: seq<S.Event> ::
              A.IsEmpty(s) && S.Runs(s, es) && IsFutile(S.After(s, es).queue, 0)
  {
    hide Reaches, Arrives;
    var s := W.Nothing(1, 0);
    var t := RefusedOnce(s.queue);
    assert IsFit(t, [], ReadMark());
    assert IsFutile(t, 0);
    Here(0, s);
    QueueArrives(0, s, s, t);
    var es := RunOf(0, s, S.Sys(t, s.auth));
  }
}
