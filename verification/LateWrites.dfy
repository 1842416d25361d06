/** Two runs in which the notification of a failure raises after the row has been replayed: the
    catch-all then fails a row its drainer let go of long ago. */
module LateWrites {
  import opened Actions
  import opened Timestamps
  import opened Tables
  import opened Queue
  import opened Ownership
  import opened Dispatches
  import opened Reach
  import opened Flights
  import opened Replays
  import S = System
  import A = Approvals
  import W = Lines

  function Shelve(): Spec { Spec(Some("m"), Archive, 2, map[], 0, None) }

  function Hour(): seq<Grant> { [Grant(Archive, ["m"], Utc(HOUR), 0, None)] }

  function Empty(): S.Sys {
    S.Sys(Queue(0, false, [], map[], W.Inbox(), map["m" := "inbox"], [Idle, Idle], map[],
                [], [], [], map[], [], [], []),
          NobodyAsked())
  }

  /** Nothing has happened to the world, and the row is the only one. */
  predicate IsStage(q: Queue, r: Row) {
    && q.now == 0 && !q.paused && q.emails == W.Inbox() && q.mailbox == map["m" := "inbox"] && q.calls == map[]
    && q.history == map[] && |q.drainers| == 2 && q.rows == [r]
  }

  lemma ShelveIsFit(q: Queue, r: Row)
    requires IsStage(q, r)
    ensures IsFit(q, Hour(), Shelve())
  {
    assert IsLive(Hour()[0], Archive, 0) && Covers(Hour()[0], Some("m"));
  }

  /** Proposed and granted. */
  lemma Prologue() returns (u: S.Sys)
    ensures A.IsEmpty(Empty()) && Arrives(0, Empty(), u) && u.auth.grants == Hour()
    ensures u.queue == Empty().queue.(rows := [NewRow(Shelve(), Status.Pending)])
  {
    hide Arrives, Reaches;
    var s := Empty();
    var q := s.queue;
    var r := NewRow(Shelve(), PendingGrant);
    Here(0, s);
    Stay(q, []);
    assert Step(q, [], Propose(Shelve())) == q.(rows := [r]);
    Onward(q, [], q, Propose(Shelve()));
    QueueArrives(0, s, s, q.(rows := [r]));
    u := MintsGrant(0, s, S.Sys(q.(rows := [r]), s.auth), Archive, "m", Utc(HOUR));
    assert PromoteGranted([r], Archive) == [NewRow(Shelve(), Status.Pending)];
  }

  /** Drainer 0 cannot capture the folder, fails the row and is about to say so. */
  lemma FailsAndNotifies(q: Queue) returns (t: Queue)
    requires IsStage(q, NewRow(Shelve(), Status.Pending)) && q.drainers[0].Idle?
    ensures Reaches(q, Hour(), t)
    ensures IsStage(t, MarkFailed(NewRow(Shelve(), Draining), "pre_state_capture_failed", 0, false))
    ensures IsTelling(t.drainers[0]) && t.drainers[1] == q.drainers[1]
  {
    hide Reaches, IsFit;
    var g := Hour();
    Stay(q, g);
    t := W.ClaimNextInLine(q, g, q, 0, 0, Shelve());
    ShelveIsFit(t, NewRow(Shelve(), Draining));
    var y := PassChecks(q, g, t, 0);
    t := At(t, 0, y);
    Refuse(q, g, t, 0);
    t := AfterRefusal(t, 0, "pre_state_capture_failed");
  }

  /** Row 0 is failed, and the drainer is sending the notification. */
  predicate IsTelling(x: Drainer) {
    x.Working? && x.stage.Notifying? && x.job.late && x.job.id == 0 && x.job.spec == Shelve() && x.batch == []
  }

  lemma ReplayedToPending(o: Queue, q: Queue, reason: string) returns (t: Queue)
    requires Reaches(o, Hour(), q) && IsStage(q, MarkFailed(NewRow(Shelve(), Draining), reason, 0, false))
    ensures Reaches(o, Hour(), t) && t.drainers == q.drainers && IsStage(t, NewRow(Shelve(), Status.Pending))
  {
    hide Reaches, IsFit;
    ShelveIsFit(q, q.rows[0]);
    Replayed(o, Hour(), q, 0, 0);
    t := AfterReset(q, 0);
    assert t.rows == [NewRow(Shelve(), Status.Pending)];
  }

  /** The notification raises, and the catch-all marks the row. */
  lemma Raises(o: Queue, q: Queue) returns (t: Queue)
    requires Reaches(o, Hour(), q) && |q.drainers| == 2 && IsTelling(q.drainers[0]) && |q.rows| == 1
    ensures Reaches(o, Hour(), t) && t == q.(drainers := t.drainers, rows := t.rows, restamps := t.restamps)
    ensures |t.drainers| == 2 && t.drainers[1] == q.drainers[1] && W.IsFree(t.drainers[0], 0, Shelve())
    ensures t.rows == [MarkFailed(q.rows[0], "drainer_internal_error", q.now, false)]
  {
    hide Reaches;
    var x := q.drainers[0];
    Rest(q.rows, x, Throw);
    QuietStep(o, Hour(), q, 0, Throw);
    t := At(q, 0, Catch(x, "drainer_internal_error", q.now));
    FailRow(o, Hour(), t, 0);
    t := AfterFailure(t, 0);
  }

  /** Drainer 1 claims the replayed row … */
  lemma ClaimedAgain(q: Queue) returns (t: Queue)
    requires IsStage(q, NewRow(Shelve(), Status.Pending)) && q.drainers == [Idle, Idle]
    ensures Reaches(q, Hour(), t) && IsStage(t, NewRow(Shelve(), Draining)) && IsTelling(t.drainers[0])
    ensures var x := t.drainers[1]; x.Working? && x.stage.Claimed? && x.job == StartJob(Picked(0, Shelve()))
  {
    hide Reaches;
    var f := FailsAndNotifies(q);
    t := ReplayedToPending(q, f, "pre_state_capture_failed");
    t := W.ClaimNextInLine(q, Hour(), t, 1, 0, Shelve());
    assert t.rows == [NewRow(Shelve(), Draining)];
  }

  /** … and applies it. */
  lemma AppliedAgain(q: Queue) returns (t: Queue)
    requires IsStage(q, NewRow(Shelve(), Status.Pending)) && q.drainers == [Idle, Idle]
    ensures Reaches(q, Hour(), t) && |t.drainers| == 2 && IsTelling(t.drainers[0])
    ensures |t.rows| == 1 && t.rows[0].status.Applied?
  {
    hide Reaches, IsFit;
    var c := ClaimedAgain(q);
    ShelveIsFit(c, c.rows[0]);
    t := ReachAdapter(q, Hour(), c, 1);
    assert CanAccept(t, Shelve());
    Land(q, Hour(), t, 1);
    t := Landed(t, 1);
  }

  /** An applied row that a later part of the run fails. */
  ghost predicate LosesApplied(s: S.Sys, es: seq<S.Event>, es': seq<S.Event>, id: nat) {
    && A.IsEmpty(s) && S.Runs(s, es) && S.Runs(S.After(s, es), es')
    && IsApplied(S.After(s, es).queue.rows, id)
    && var rows := S.After(S.After(s, es), es').queue.rows; id < |rows| && rows[id].status.Failed?
  }

  /** From an empty database, with two drainers: an action that was carried out and marked applied
      ends up failed. */
  lemma AppliedRowFails()
    ensures exists s: S.Sys, es: seq<S.Event>, es': seq<S.Event> :: LosesApplied(s, es, es', 0)
  {
    hide Reaches, Arrives;
    var u := Prologue();
    var a := AppliedAgain(u.queue);
    QueueArrives(0, Empty(), u, a);
    var v := S.Sys(a, u.auth);
    var es := RunOf(0, Empty(), v);
    Stay(a, Hour());
    var t := Raises(a, a);
    Here(0, v);
    QueueArrives(0, v, v, t);
    var es' := RunOf(0, v, S.Sys(t, u.auth));
    assert LosesApplied(Empty(), es, es', 0);
  }

  /** Both drainers have claimed the row and owe it a verdict. */
  predicate HeldTwice(q: Queue) {
    |q.drainers| == 2 && Holds(q.drainers[0], 0) && Holds(q.drainers[1], 0)
  }

  /** The late write frees the row for a second claim. */
  lemma ClaimedTwice(q: Queue) returns (t: Queue)
    requires IsStage(q, NewRow(Shelve(), Status.Pending)) && q.drainers == [Idle, Idle]
    ensures Reaches(q, Hour(), t) && HeldTwice(t)
  {
    hide Reaches;
    t := ClaimedAgain(q);
    t := Raises(q, t);
    assert t.rows == [MarkFailed(NewRow(Shelve(), Draining), "drainer_internal_error", 0, false)];
    t := ReplayedToPending(q, t, "drainer_internal_error");
    t := W.ClaimNextInLine(q, Hour(), t, 0, 0, Shelve());
  }

  /** From an empty database: two drainers hold one row. */
  lemma RowIsHeldTwice()
    ensures exists s: S.Sys, es: seq<S.Event> :: A.IsEmpty(s) && S.Runs(s, es) && HeldTwice(S.After(s, es).queue)
  {
    hide Reaches, Arrives;
    var u := Prologue();
    var t := ClaimedTwice(u.queue);
    QueueArrives(0, Empty(), u, t);
    var es := RunOf(0, Empty(), S.Sys(t, u.auth));
  }
}
