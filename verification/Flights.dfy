/** Stretches of runs in which one drainer takes one row through its stages. */
module Flights {
  import opened Actions
  import opened Timestamps
  import opened Tables
  import opened Queue
  import opened Reach
  import A = Approvals

  /** The queue with drainer `d` at `x`. */
  function At(q: Queue, d: nat, x: Drainer): Queue
    requires d < |q.drainers|
  {
    q.(drainers := q.drainers[d := x])
  }

  /** A step that changes nothing but where the drainer is. */
  predicate IsQuiet(q: Queue, x: Drainer, c: Choice) {
    && RowsAfter(q.rows, x, c) == q.rows && !Records(q, x, c) && !Sends(x, c) && !Completes(x, c, Repairing)
    && !Completes(x, c, Marking) && !Completes(x, c, Failing) && !Completes(x, c, Recovering)
  }

  lemma QuietStep(o: Queue, grants: seq<Grant>, q: Queue, d: nat, c: Choice)
    requires Reaches(o, grants, q) && CanDrain(q, d, c) && IsQuiet(q, q.drainers[d], c)
    ensures Reaches(o, grants, At(q, d, DrainNext(q, grants, q.drainers[d], c)))
  {
    hide Reaches, RowsAfter, DrainNext, CanTake, Records, Sends;
    assert Step(q, grants, Drain(d, c)) == At(q, d, DrainNext(q, grants, q.drainers[d], c));
    Onward(o, grants, q, Drain(d, c));
  }

  lemma Rest(rows: seq<Row>, x: Drainer, c: Choice)
    requires x.Working? && (c == Go ==> !x.stage.Releasing? && !x.stage.Marking? && !x.stage.Failing? &&
                                        !x.stage.Recovering? && !x.stage.Waiting?)
    ensures RowsAfter(rows, x, c) == rows
  {
  }

  // ----- the tick -----

  /** The drainer reads the pause state and then its batch. */
  lemma Poll(o: Queue, grants: seq<Grant>, q: Queue, d: nat, batch: seq<Picked>)
    requires Reaches(o, grants, q) && d < |q.drainers| && q.drainers[d].Idle? && !q.paused
    requires IsDrainable(q.rows, batch, BATCH_SIZE)
    ensures Reaches(o, grants, At(q, d, Looping(batch, 0)))
  {
    hide Reaches;
    QuietStep(o, grants, q, d, Go);
    QuietStep(o, grants, At(q, d, Polled), d, Pick(batch));
    assert At(At(q, d, Polled), d, Looping(batch, 0)) == At(q, d, Looping(batch, 0));
  }

  lemma EndTick(o: Queue, grants: seq<Grant>, q: Queue, d: nat, processed: int)
    requires Reaches(o, grants, q) && d < |q.drainers| && q.drainers[d] == Looping([], processed)
    ensures Reaches(o, grants, At(q, d, Idle))
  {
    hide Reaches;
    QuietStep(o, grants, q, d, Go);
  }

  /** The claim of the batch's head. */
  function AfterClaim(q: Queue, d: nat): Queue
    requires d < |q.drainers| && q.drainers[d].Looping? && q.drainers[d].batch != []
    requires IsClaimable(q.rows, q.drainers[d].batch[0])
  {
    var x := q.drainers[d];
    var id := x.batch[0].id;
    At(q, d, Working(Claimed, StartJob(x.batch[0]), x.batch[1..], x.processed + 1)).(
      rows := q.rows[id := q.rows[id].(status := Draining)])
  }

  lemma Claim(o: Queue, grants: seq<Grant>, q: Queue, d: nat)
    requires Reaches(o, grants, q) && d < |q.drainers| && q.drainers[d].Looping? && q.drainers[d].batch != []
    requires IsClaimable(q.rows, q.drainers[d].batch[0])
    ensures Reaches(o, grants, AfterClaim(q, d))
  {
    hide Reaches;
    assert Step(q, grants, Drain(d, Go)) == AfterClaim(q, d);
    Onward(o, grants, q, Drain(d, Go));
  }

  // ----- the checks -----

  /** As things stand, the row would pass every check and Graph could carry it out. */
  predicate IsFit(q: Queue, grants: seq<Grant>, s: Spec) {
    && A.TierOk(s) && VetFailure(q.emails, s).None? && CanAccept(q, s)
    && (RequiresGrant(s.action) ==> FindGrant(grants, s.action, s.emailId, q.now).Some?)
    && (IsSendFamily(s.action) ==> BudgetConsumed(q.rows, Midnight(q.now)) < DAILY_SEND_CAP)
    && (IsMoveFamily(s.action) ==> q.mailbox[s.emailId.value] != "")
  }

  /** What the checks leave in the job. */
  predicate IsVetted(j: Job, k: Job) {
    k.id == j.id && k.spec == j.spec && k.pre == j.pre && k.late == j.late
  }

  predicate IsAt(x: Drainer, y: Drainer, stage: Stage) {
    && x.Working? && y.Working? && y.stage == stage && IsVetted(x.job, y.job)
    && y.batch == x.batch && y.processed == x.processed
  }

  /** Through the pause read, the grant and the checks on the email. */
  lemma PassChecks(o: Queue, grants: seq<Grant>, q: Queue, d: nat) returns (y: Drainer)
    requires Reaches(o, grants, q) && d < |q.drainers| && q.drainers[d].Working? && q.drainers[d].stage.Claimed?
    requires !q.paused && IsFit(q, grants, q.drainers[d].job.spec)
    ensures var s := q.drainers[d].job.spec;
            IsAt(q.drainers[d], y, if IsSendFamily(s.action) then Capping else if IsMoveFamily(s.action) then Capturing
                                   else Recording)
    ensures Reaches(o, grants, At(q, d, y))
  {
    hide Reaches, VetFailure, CanAccept, BudgetConsumed;
    var x := q.drainers[d];
    var s := x.job.spec;
    assert At(q, d, x) == q;
    y := Hop(o, grants, q, d, x, Go);
    y := Hop(o, grants, q, d, y, Go);
    if s.tier != 1 { y := Hop(o, grants, q, d, y, Go); }
    y := Hop(o, grants, q, d, y, Go);
  }

  /** A quiet step of a working drainer. */
  lemma Hop(o: Queue, grants: seq<Grant>, q: Queue, d: nat, x: Drainer, c: Choice) returns (y: Drainer)
    requires d < |q.drainers| && Reaches(o, grants, At(q, d, x)) && x.Working? && CanWork(q, x, c)
    requires x.stage.Claimed? || x.stage.Checking? || x.stage.Scanning? || x.stage.Vetting? || x.stage.Capping? ||
             x.stage.Counting? || x.stage.Capturing? || x.stage.Stamping?
    ensures y == WorkNext(q, grants, x, c) && Reaches(o, grants, At(q, d, y))
  {
    hide Reaches, WorkNext, CanWork;
    y := WorkNext(q, grants, x, c);
    var t := At(q, d, x);
    Rest(q.rows, x, c);
    SameView(q, t, grants, x, c);
    QuietStep(o, grants, t, d, c);
    assert At(t, d, y) == At(q, d, y);
  }

  /** A drainer's step reads no drainer but itself. */
  lemma SameView(q: Queue, t: Queue, grants: seq<Grant>, x: Drainer, c: Choice)
    requires x.Working? && t == q.(drainers := t.drainers)
    ensures WorkNext(t, grants, x, c) == WorkNext(q, grants, x, c) && CanWork(t, x, c) == CanWork(q, x, c)
  {
  }

  /** Through the send cap or the capture of the folder, up to the history insert. */
  lemma PassAll(o: Queue, grants: seq<Grant>, q: Queue, d: nat) returns (y: Drainer)
    requires Reaches(o, grants, q) && d < |q.drainers| && q.drainers[d].Working? && q.drainers[d].stage.Claimed?
    requires !q.paused && IsFit(q, grants, q.drainers[d].job.spec) && q.drainers[d].job.pre.None?
    ensures var x, s := q.drainers[d], q.drainers[d].job.spec;
            && y.Working? && y.stage.Recording? && y.batch == x.batch && y.processed == x.processed
            && y.job.id == x.job.id && y.job.spec == s && y.job.late == x.job.late
            && y.job.pre == if IsMoveFamily(s.action) then Some(q.mailbox[s.emailId.value]) else None
    ensures Reaches(o, grants, At(q, d, y))
  {
    hide Reaches, VetFailure, BudgetConsumed;
    var s := q.drainers[d].job.spec;
    y := PassChecks(o, grants, q, d);
    if IsSendFamily(s.action) {
      y := Hop(o, grants, q, d, y, Go);
      y := Hop(o, grants, q, d, y, Go);
    } else if IsMoveFamily(s.action) {
      y := Hop(o, grants, q, d, y, Go);
    }
  }

  // ----- the dispatch -----

  /** The history row is written. */
  function Recorded(q: Queue, d: nat, y: Drainer): Queue
    requires d < |q.drainers| && y.Working?
  {
    At(q, d, y.(stage := Dispatching)).(
      history := q.history[y.job.id := History(y.job.pre, None)],
      captures := if y.job.pre.Some? then q.captures[y.job.id := Capture(y.job.pre.value, y.job.seen)] else q.captures)
  }

  lemma Record(o: Queue, grants: seq<Grant>, q: Queue, d: nat)
    requires Reaches(o, grants, q) && d < |q.drainers| && q.drainers[d].Working? && q.drainers[d].stage.Recording?
    requires q.drainers[d].job.id !in q.history
    ensures Reaches(o, grants, Recorded(q, d, q.drainers[d]))
  {
    hide Reaches;
    Rest(q.rows, q.drainers[d], Go);
    assert Step(q, grants, Drain(d, Go)) == Recorded(q, d, q.drainers[d]);
    Onward(o, grants, q, Drain(d, Go));
  }

  /** Claimed, checked and recorded: the row is about to be sent. */
  lemma ReachAdapter(o: Queue, grants: seq<Grant>, q: Queue, d: nat) returns (t: Queue)
    requires Reaches(o, grants, q) && d < |q.drainers| && q.drainers[d].Working? && q.drainers[d].stage.Claimed?
    requires !q.paused && IsFit(q, grants, q.drainers[d].job.spec)
    requires q.drainers[d].job.pre.None? && q.drainers[d].job.id !in q.history
    ensures Reaches(o, grants, t)
    ensures d < |t.drainers| && t.drainers[d].Working? && t == Recorded(q, d, t.drainers[d])
    ensures var x, y := q.drainers[d], t.drainers[d];
            && y.Working? && y.stage.Dispatching? && y.batch == x.batch && y.processed == x.processed
            && y.job.id == x.job.id && y.job.spec == x.job.spec && y.job.late == x.job.late
            && y.job.pre == if IsMoveFamily(x.job.spec.action) then Some(q.mailbox[x.job.spec.emailId.value]) else None
  {
    hide Reaches, IsFit;
    var y := PassAll(o, grants, q, d);
    Record(o, grants, At(q, d, y), d);
    t := Recorded(At(q, d, y), d, y);
  }

  /** What an accepted dispatch leaves, before the row is marked. */
  function AfterSend(q: Queue, d: nat): Queue
    requires d < |q.drainers| && q.drainers[d].Working? && CanAccept(q, q.drainers[d].job.spec)
  {
    var x := q.drainers[d];
    var moves := IsMoveFamily(x.job.spec.action);
    At(q, d, x.(stage := Stamping)).(
      dispatches := q.dispatches + [DispatchOf(q, x, d)],
      mailbox := if moves then q.mailbox[x.job.spec.emailId.value := Destination(x.job.spec).value] else q.mailbox,
      moves := if moves then q.moves + [MoveOf(q, x)] else q.moves)
  }

  /** And after: the drainer goes on, or has a soft-delete to clear first. */
  function Landed(q: Queue, d: nat): Queue
    requires d < |q.drainers| && q.drainers[d].Working? && q.drainers[d].job.id < |q.rows|
    requires CanAccept(q, q.drainers[d].job.spec)
  {
    var x, t := q.drainers[d], AfterSend(q, d);
    var s, id := x.job.spec, x.job.id;
    var stamped := x.(job := x.job.(stamp := q.now));
    var y := if IsRevertRow(s) && s.emailId.Some? then Linger(stamped, Repairing) else Done(x);
    At(t, d, y).(
      rows := q.rows[id := Tables.MarkApplied(q.rows[id], q.now, IsSendFamily(s.action), x.job.grant)],
      applied := q.applied + [Application(id, s, q.now)])
  }

  lemma Land(o: Queue, grants: seq<Grant>, q: Queue, d: nat)
    requires Reaches(o, grants, q) && d < |q.drainers| && q.drainers[d].Working? && q.drainers[d].stage.Dispatching?
    requires q.drainers[d].job.id < |q.rows| && CanAccept(q, q.drainers[d].job.spec)
    ensures Reaches(o, grants, Landed(q, d))
  {
    hide Reaches, CanAccept;
    Send(o, grants, q, d);
    LandAfter(o, grants, q, d);
  }

  /** The one write of a drainer that marks its row applied. */
  lemma MarkWrites(q: Queue, grants: seq<Grant>, y: Drainer)
    requires y.Working? && y.job.id < |q.rows| && y.stage.Marking?
    ensures CanTake(q, y, Go) && Completes(y, Go, Marking)
    ensures !Records(q, y, Go) && !Sends(y, Go) && !Moves(q, y, Go) && !Completes(y, Go, Repairing) && !Lapses(q, y, Go)
    ensures RowsAfter(q.rows, y, Go) == q.rows[y.job.id :=
              Tables.MarkApplied(q.rows[y.job.id], y.job.stamp, IsSendFamily(y.job.spec.action), y.job.grant)]
    ensures DrainNext(q, grants, y, Go) ==
            if IsRevertRow(y.job.spec) && y.job.spec.emailId.Some? then Linger(y, Repairing) else Done(y)
  {
  }

  lemma MarkStep(grants: seq<Grant>, q: Queue, d: nat, y: Drainer)
    requires d < |q.drainers| && q.drainers[d].Working? && q.drainers[d].stage.Dispatching?
    requires q.drainers[d].job.id < |q.rows| && CanAccept(q, q.drainers[d].job.spec)
    requires y == q.drainers[d].(stage := Marking, job := q.drainers[d].job.(stamp := q.now))
    ensures var u := At(AfterSend(q, d), d, y);
            Enabled(u, Drain(d, Go)) && Step(u, grants, Drain(d, Go)) == Landed(q, d)
  {
    MarkWrites(At(AfterSend(q, d), d, y), grants, y);
    hide CanAccept, Destination, MoveOf, DispatchOf, CanTake, Records, Sends, Moves, Lapses, RowsAfter, DrainNext;
    hide Completes, IsRevertRow, IsMoveFamily, IsSendFamily, Tables.MarkApplied;
  }

  lemma SentIsAt(q: Queue, d: nat)
    requires d < |q.drainers| && q.drainers[d].Working? && CanAccept(q, q.drainers[d].job.spec)
    ensures var t := AfterSend(q, d);
            && d < |t.drainers| && t.drainers[d] == q.drainers[d].(stage := Stamping) && t.now == q.now
            && At(t, d, t.drainers[d]) == t
  {
    hide CanAccept, Destination, MoveOf, DispatchOf;
  }

  /** From the accepted dispatch on. */
  lemma LandAfter(o: Queue, grants: seq<Grant>, q: Queue, d: nat)
    requires d < |q.drainers| && q.drainers[d].Working? && q.drainers[d].stage.Dispatching?
    requires q.drainers[d].job.id < |q.rows| && CanAccept(q, q.drainers[d].job.spec)
    requires Reaches(o, grants, AfterSend(q, d))
    ensures Reaches(o, grants, Landed(q, d))
  {
    hide Reaches, CanAccept, AfterSend, Landed, Step, Enabled;
    var t := AfterSend(q, d);
    SentIsAt(q, d);
    var y := Hop(o, grants, t, d, t.drainers[d], Go);
    MarkStep(grants, q, d, y);
    Onward(o, grants, At(t, d, y), Drain(d, Go));
  }

  lemma SendStep(grants: seq<Grant>, q: Queue, d: nat)
    requires d < |q.drainers| && q.drainers[d].Working? && q.drainers[d].stage.Dispatching?
    requires CanAccept(q, q.drainers[d].job.spec)
    ensures Enabled(q, Drain(d, Go)) && Step(q, grants, Drain(d, Go)) == AfterSend(q, d)
  {
    Rest(q.rows, q.drainers[d], Go);
  }

  lemma Send(o: Queue, grants: seq<Grant>, q: Queue, d: nat)
    requires Reaches(o, grants, q) && d < |q.drainers| && q.drainers[d].Working? && q.drainers[d].stage.Dispatching?
    requires CanAccept(q, q.drainers[d].job.spec)
    ensures Reaches(o, grants, AfterSend(q, d))
    ensures At(AfterSend(q, d), d, AfterSend(q, d).drainers[d]) == AfterSend(q, d)
  {
    hide Reaches;
    SendStep(grants, q, d);
    Onward(o, grants, q, Drain(d, Go));
  }

  /** The record of a row's new stamp. */
  function Restamped(q: Queue, id: nat, stamp: Option<int>): seq<Restamp>
    requires id < |q.rows|
  {
    if WasApplied(q.applied, id) then q.restamps + [Restamp(id, q.rows[id].terminalAt, stamp)] else q.restamps
  }

  /** Graph refuses the row, or a read before that gives no folder, and the row is failed. */
  function AfterRefusal(q: Queue, d: nat, reason: string): Queue
    requires d < |q.drainers| && q.drainers[d].Working? && q.drainers[d].job.id < |q.rows|
  {
    var y := GiveUp(q.drainers[d], reason, q.now);
    var s := y.job.spec;
    At(q, d, if s.tier == 1 then Done(y) else Linger(y, Notifying)).(
      rows := q.rows[y.job.id := MarkFailed(q.rows[y.job.id], reason, q.now, IsSendFamily(s.action))],
      restamps := Restamped(q, y.job.id, Some(q.now)),
      dispatches := if q.drainers[d].stage.Dispatching? then q.dispatches + [DispatchOf(q, q.drainers[d], d)]
                    else q.dispatches)
  }

  function GivenUp(q: Queue, d: nat, reason: string): Queue
    requires d < |q.drainers| && q.drainers[d].Working?
  {
    At(q, d, GiveUp(q.drainers[d], reason, q.now)).(
      dispatches := if q.drainers[d].stage.Dispatching? then q.dispatches + [DispatchOf(q, q.drainers[d], d)]
                    else q.dispatches)
  }

  /** MARK_FAILED is written. */
  function AfterFailure(q: Queue, d: nat): Queue
    requires d < |q.drainers| && q.drainers[d].Working? && q.drainers[d].job.id < |q.rows|
  {
    var y := q.drainers[d];
    At(q, d, if y.stage.Failing? && y.job.spec.tier != 1 then Linger(y, Notifying) else Done(y)).(
      rows := q.rows[y.job.id := RowAfter(q.rows[y.job.id], Failing, y.job)],
      restamps := Restamped(q, y.job.id, Some(y.job.stamp)))
  }

  /** The one write of a drainer that fails its row. */
  lemma FailWrites(q: Queue, grants: seq<Grant>, x: Drainer)
    requires x.Working? && x.job.id < |q.rows| && (x.stage.Failing? || x.stage.Recovering?)
    ensures !Records(q, x, Go) && !Sends(x, Go) && !Completes(x, Go, Repairing) && !Completes(x, Go, Marking)
    ensures Lapses(q, x, Go) <==> WasApplied(q.applied, x.job.id)
    ensures RowsAfter(q.rows, x, Go) == q.rows[x.job.id := RowAfter(q.rows[x.job.id], Failing, x.job)]
    ensures DrainNext(q, grants, x, Go) ==
            if x.stage.Failing? && x.job.spec.tier != 1 then Linger(x, Notifying) else Done(x)
    ensures CanTake(q, x, Go)
  {
  }

  lemma FailRow(o: Queue, grants: seq<Grant>, q: Queue, d: nat)
    requires Reaches(o, grants, q) && d < |q.drainers| && q.drainers[d].Working? && q.drainers[d].job.id < |q.rows|
    requires q.drainers[d].stage.Failing? || q.drainers[d].stage.Recovering?
    ensures Reaches(o, grants, AfterFailure(q, d))
  {
    FailWrites(q, grants, q.drainers[d]);
    hide Reaches, RowsAfter, DrainNext, RowAfter, CanTake, Records, Sends, Lapses, Linger, WasApplied;
    assert Step(q, grants, Drain(d, Go)) == AfterFailure(q, d);
    Onward(o, grants, q, Drain(d, Go));
  }

  lemma GiveUpRow(o: Queue, grants: seq<Grant>, q: Queue, d: nat, reason: string)
    requires Reaches(o, grants, q) && d < |q.drainers| && q.drainers[d].Working?
    requires if q.drainers[d].stage.Capturing? then reason == "pre_state_capture_failed"
             else && reason == "provider_error" && q.drainers[d].stage.Dispatching?
                  && !IsLocalOnly(q.drainers[d].job.spec.action)
    ensures Reaches(o, grants, GivenUp(q, d, reason))
  {
    hide Reaches;
    Rest(q.rows, q.drainers[d], Fail);
    assert Step(q, grants, Drain(d, Fail)) == GivenUp(q, d, reason);
    Onward(o, grants, q, Drain(d, Fail));
  }

  lemma Refuse(o: Queue, grants: seq<Grant>, q: Queue, d: nat)
    requires Reaches(o, grants, q) && d < |q.drainers| && q.drainers[d].Working? && q.drainers[d].job.id < |q.rows|
    requires q.drainers[d].stage.Capturing? ||
             (q.drainers[d].stage.Dispatching? && !IsLocalOnly(q.drainers[d].job.spec.action))
    ensures var reason := if q.drainers[d].stage.Capturing? then "pre_state_capture_failed" else "provider_error";
            Reaches(o, grants, AfterRefusal(q, d, reason))
  {
    hide Reaches;
    var x := q.drainers[d];
    var reason := if x.stage.Capturing? then "pre_state_capture_failed" else "provider_error";
    GiveUpRow(o, grants, q, d, reason);
    FailRow(o, grants, GivenUp(q, d, reason), d);
    assert AfterFailure(GivenUp(q, d, reason), d) == AfterRefusal(q, d, reason);
  }
}
