/** Two runs in which the inverse row's drainer does not get to clear the soft-delete. */
module RepairRuns {
  import opened Actions
  import opened Tables
  import opened Queue
  import opened Dispatches
  import opened Reach
  import opened Flights
  import opened Repairs
  import S = System
  import A = Approvals
  import W = Lines
  import R = Replays
  import O = Ownership

  function Triage(): Spec { Spec(Some("m"), MoveToTriageFolder, 1, map[DestinationFolder := Text("triage")], 0, None) }

  /** What the reverter queues for it. */
  function Back(): Spec {
    Spec(Some("m"), MoveToTriageFolder, 1, map[DestinationFolder := Text("inbox"), RevertOf := Number(0)], 0, None)
  }

  function Empty(): S.Sys {
    S.Sys(Queue(0, false, [], map[], W.Inbox(), map["m" := "inbox"], [Idle], map[], [], [], [], map[], [], [], []),
          NobodyAsked())
  }

  /** A Tier-1 row is claimed, sent and marked by the one drainer, which is free. */
  lemma Sails(o: Queue, q: Queue, i: nat, s: Spec) returns (t: Queue)
    requires Reaches(o, [], q) && W.Line(q, i, s) && i < |q.rows| && i !in q.history && !q.paused && |q.drainers| == 1
    requires W.IsFree(q.drainers[0], i, s) && s.tier == TierFor(s.action) == 1 && IsMoveFamily(s.action)
    requires VetFailure(q.emails, s).None? && CanAccept(q, s) && q.mailbox[s.emailId.value] != ""
    ensures Reaches(o, [], t) && |t.drainers| == 1 && t.emails == q.emails && t.now == q.now && t.paused == q.paused
    ensures t.calls == q.calls && t.mailbox == q.mailbox[s.emailId.value := Destination(s).value]
    ensures |t.rows| == |q.rows|
    ensures t.rows == q.rows[i := MarkApplied(q.rows[i].(status := Draining), q.now, false, t.rows[i].grantId)]
    ensures t.history == q.history[i := History(Some(q.mailbox[s.emailId.value]), None)]
    ensures var x := t.drainers[0];
            if NeedsRepair(s) then AtRepair(x, i) && x.job.late
            else x.Looping? && x.batch == W.Upcoming(i + 1, |x.batch|, s)
    ensures q.drainers[0].Idle? ==> (t.drainers[0].Looping? ==> i + 1 + |t.drainers[0].batch| <= |q.rows|)
  {
    hide Reaches, VetFailure, Destination;
    var c := W.ClaimNextInLine(o, [], q, 0, i, s);
    assert IsFit(c, [], s);
    var u := ReachAdapter(o, [], c, 0);
    Land(o, [], u, 0);
    t := Landed(u, 0);
  }

  /** The move is made. */
  lemma MovedAway(q: Queue) returns (t: Queue)
    requires q == Empty().queue
    ensures Reaches(q, [], t) && |t.drainers| == 1 && t.drainers[0].Looping? && t.drainers[0].batch == []
    ensures t.now == 0 && !t.paused && t.calls == map[] && t.mailbox == map["m" := "triage"] && t.emails == W.Inbox()
    ensures |t.rows| == 1 && t.rows[0].spec == Triage() && t.rows[0].status.Applied? && t.rows[0].terminalAt == Some(0)
    ensures t.history == map[0 := History(Some("inbox"), None)]
  {
    hide Reaches;
    Stay(q, []);
    assert Step(q, [], Propose(Triage())) == q.(rows := [NewRow(Triage(), Status.Pending)]);
    Onward(q, [], q, Propose(Triage()));
    t := Sails(q, q.(rows := [NewRow(Triage(), Status.Pending)]), 0, Triage());
  }

  /** Sync no longer finds it in the inbox; the user reverts. */
  lemma RevertQueued(o: Queue, q: Queue) returns (t: Queue)
    requires Reaches(o, [], q) && q.now == 0 && q.calls == map[] && "m" in q.emails
    requires |q.rows| == 1 && q.rows[0].spec == Triage() && q.rows[0].status.Applied? && q.rows[0].terminalAt == Some(0)
    requires q.history == map[0 := History(Some("inbox"), None)]
    ensures Reaches(o, [], t) && t.now == 0 && t.paused == q.paused && t.drainers == q.drainers
    ensures t.mailbox == q.mailbox && t.emails == q.emails["m" := q.emails["m"].(deleted := true)]
    ensures t.calls == map[] && t.rows == q.rows + [NewRow(Back(), Status.Pending)] && t.history.Keys == {0}
  {
    hide Reaches;
    Onward(o, [], q, SyncRemove("m"));
    var u := Step(q, [], SyncRemove("m"));
    Onward(o, [], u, Revert(0, 0));
    u := u.(calls := map[0 := Reverting(0, Triage())]);
    assert InverseOf(Triage(), 0, Some(History(Some("inbox"), None)), 0) == Some(Back());
    Onward(o, [], u, Continue(0));
    u := u.(calls := map[0 := Resolved(0, Back(), true)]);
    assert Step(u.(calls := map[0 := Reverting(0, Triage())]), [], Continue(0)) == u;
    t := RevertClaimed(o, u);
  }

  lemma RevertClaimed(o: Queue, q: Queue) returns (t: Queue)
    requires Reaches(o, [], q) && q.calls == map[0 := Resolved(0, Back(), true)]
    requires q.history == map[0 := History(Some("inbox"), None)]
    ensures Reaches(o, [], t) && t == q.(rows := t.rows, calls := map[], history := t.history, inverses := t.inverses)
    ensures t.rows == q.rows + [NewRow(Back(), Status.Pending)] && t.history.Keys == {0}
  {
    hide Reaches;
    var u := q.(calls := map[0 := Claiming(0, Back())]);
    assert CallStep(q, [], 0).calls == u.calls;
    CallStepIs(o, q, u);
    t := Inverted(o, u);
  }

  lemma Inverted(o: Queue, q: Queue) returns (t: Queue)
    requires Reaches(o, [], q) && q.calls == map[0 := Claiming(0, Back())]
    requires q.history == map[0 := History(Some("inbox"), None)]
    ensures Reaches(o, [], t) && t == q.(rows := t.rows, calls := map[], history := t.history, inverses := t.inverses)
    ensures t.rows == q.rows + [NewRow(Back(), Status.Pending)] && t.history.Keys == {0}
  {
    hide Reaches, CallStep;
    var v := q.(calls := map[0 := Inverting(0, Back())], history := map[0 := History(Some("inbox"), Some(0))]);
    ClaimWon(q);
    CallStepIs(o, q, v);
    t := v.(calls := map[], rows := q.rows + [NewRow(Back(), Status.Pending)],
            inverses := q.inverses + [Inverse(0, |q.rows|)]);
    InverseInserted(v);
    CallStepIs(o, v, t);
  }

  lemma ClaimWon(q: Queue)
    requires q.calls == map[0 := Claiming(0, Back())] && q.history == map[0 := History(Some("inbox"), None)]
    ensures CallStep(q, [], 0) ==
            q.(calls := map[0 := Inverting(0, Back())], history := map[0 := History(Some("inbox"), Some(0))])
  {
  }

  lemma InverseInserted(q: Queue)
    requires q.calls == map[0 := Inverting(0, Back())]
    ensures CallStep(q, [], 0) == q.(calls := map[], rows := q.rows + [NewRow(Back(), Status.Pending)],
                                     inverses := q.inverses + [Inverse(0, |q.rows|)])
  {
    assert q.calls - {0} == map[];
  }

  lemma CallStepIs(o: Queue, q: Queue, t: Queue)
    requires Reaches(o, [], q) && 0 in q.calls && CallStep(q, [], 0) == t
    ensures Reaches(o, [], t)
  {
    hide Reaches, CallStep;
    Onward(o, [], q, Continue(0));
  }

  /** The inverse row is applied, the message back in the inbox, its local row still deleted, and the
      drainer about to clear that. */
  lemma BeforeRepair(q: Queue) returns (t: Queue)
    requires q == Empty().queue
    ensures Reaches(q, [], t) && |t.drainers| == 1 && AtRepair(t.drainers[0], 1) && t.drainers[0].job.late
    ensures |t.rows| == 2 && t.rows[1].spec == Back() && IsApplied(t.rows, 1) && t.now == 0
    ensures t.mailbox["m" := "inbox"] == t.mailbox && IsDeleted(t.emails, "m") && t.calls == map[]
    ensures t.drainers[0].job.spec == Back()
  {
    hide Reaches;
    t := MovedAway(q);
    t := RevertQueued(q, t);
    assert t.rows[1] == NewRow(Back(), Status.Pending);
    assert VetFailure(t.emails, Back()).None? && CanAccept(t, Back()) && NeedsRepair(Back());
    assert W.IsFree(t.drainers[0], 1, Back());
    t := Sails(q, t, 1, Back());
    assert O.Known(q);
    var ts := ReachedByRun(q, [], t);
    O.RunKeepsKnown(q, ts);
    assert O.Ready(t.rows, t.drainers[0]);
  }

  /** The inverse row is `applied`, nobody works on it, and its email is still deleted. */
  predicate IsHidden(q: Queue, r: nat) {
    && IsApplied(q.rows, r) && NeedsRepair(q.rows[r].spec) && R.AtRest(q, r)
    && IsDeleted(q.emails, q.rows[r].spec.emailId.value)
  }

  /** A worker that dies between the two writes leaves the revert done and the email hidden. */
  lemma CrashLeavesHidden()
    ensures exists s: S.Sys, es: seq<S.Event> :: A.IsEmpty(s) && S.Runs(s, es) && IsHidden(S.After(s, es).queue, 1)
  {
    hide Reaches, Arrives;
    var s := Empty();
    var t := BeforeRepair(s.queue);
    R.Die(s.queue, [], t, 0);
    t := At(t, 0, Idle);
    assert IsHidden(t, 1);
    Here(0, s);
    QueueArrives(0, s, s, t);
    var es := RunOf(0, s, S.Sys(t, s.auth));
  }

  /** The inverse row is `failed` although its move was made, and `replay_action` refuses it once it
      has looked at the email. */
  predicate IsStuck(q: Queue, r: nat) {
    && IsReplayable(q, r) && R.AtRest(q, r) && q.rows[r].spec.emailId.Some?
    && IsDeleted(q.emails, q.rows[r].spec.emailId.value) && CallNext(q, [], Granted(r, q.rows[r].spec)).None?
  }

  lemma RaisedAtRepair(q: Queue) returns (t: Queue)
    requires q == Empty().queue
    ensures Reaches(q, [], t) && IsStuck(t, 1)
  {
    hide Reaches;
    t := BeforeRepair(q);
    var x := t.drainers[0];
    Rest(t.rows, x, Throw);
    QuietStep(q, [], t, 0, Throw);
    t := At(t, 0, Catch(x, "drainer_internal_error", 0));
    FailRow(q, [], t, 0);
    t := AfterFailure(t, 0);
  }

  /** An exception between the two writes fails the inverse row after its move was made, and a replay
      of it is refused for the very soft-delete it did not clear. */
  lemma RaiseLeavesStuck()
    ensures exists s: S.Sys, es: seq<S.Event> :: A.IsEmpty(s) && S.Runs(s, es) && IsStuck(S.After(s, es).queue, 1)
  {
    hide Reaches, Arrives;
    var s := Empty();
    var t := RaisedAtRepair(s.queue);
    Here(0, s);
    QueueArrives(0, s, s, t);
    var es := RunOf(0, s, S.Sys(t, s.auth));
  }
}
