/** How early a send can go out: the cooling-off window counts from the second of the proposal. */
module CoolingRuns {
  import opened Actions
  import opened Timestamps
  import opened Tables
  import opened Queue
  import opened CoolingOff
  import opened Reach
  import opened Flights
  import opened Lines
  import O = Ownership
  import S = System
  import A = Approvals

  /** The first moment a ticker can find a proposal due, which can be before its window is over. */
  function FirstDue(proposedAt: int, window: nat): int { WindowStart(proposedAt, false) + window * SECOND }

  predicate IsSendAt(d: Dispatch, proposedAt: int, at: int) {
    IsSend(d.spec) && d.spec.proposedAt == proposedAt && d.at == at
  }

  /** A run from nothing, with that window, that sends at `at` what was proposed at `proposedAt`. */
  ghost predicate SendsAt(s: S.Sys, es: seq<S.Event>, proposedAt: int, window: nat, at: int) {
    && S.Runs(s, es) && A.IsEmpty(s) && RunTicks(S.Ticks(s, es), window, false)
    && var ds := S.After(s, es).queue.dispatches; exists k | 0 <= k < |ds| :: IsSendAt(ds[k], proposedAt, at)
  }

  lemma NeverBeforeFirstDue(s: S.Sys, es: seq<S.Event>, proposedAt: int, window: nat, at: int)
    requires SendsAt(s, es, proposedAt, window, at)
    ensures proposedAt <= at && FirstDue(proposedAt, window) <= at
  {
    S.SystemRunIsQueueRun(s, es);
    var q, ts := s.queue, S.Ticks(s, es);
    assert O.Known(q) && Cooling(q, window, false);
    var ds := S.After(s, es).queue.dispatches;
    var k :| 0 <= k < |ds| && IsSendAt(ds[k], proposedAt, at);
    SendsWaitOut(q, ts, window, false, k);
  }

  /** The first whole second at which the row can be due. */
  lemma DueAtFirst(proposedAt: nat, window: nat)
    ensures UtcAtMost(proposedAt, FirstDue(proposedAt, window) - window * SECOND)
  {
    var cutoff := WindowStart(proposedAt, false);
    assert cutoff == SECOND * (proposedAt / SECOND);
    assert cutoff % SECOND == 0;
  }

  lemma ProposeAndWait(q: Queue, proposedAt: nat, at: int)
    requires q.rows == [] && q.now == proposedAt <= at
    ensures Reaches(q, [], q.(rows := [NewRow(Reply(proposedAt), Status.CoolingOff)], now := at))
  {
    hide Reaches;
    Stay(q, []);
    var t := q.(rows := [NewRow(Reply(proposedAt), Status.CoolingOff)]);
    assert Step(q, [], Propose(Reply(proposedAt))) == t;
    Onward(q, [], q, Propose(Reply(proposedAt)));
    Onward(q, [], t, Advance(at - proposedAt));
  }

  lemma TickAndWait(window: nat, s: S.Sys, t: S.Sys, proposedAt: nat, at: int)
    requires Arrives(window, s, t) && FirstDue(proposedAt, window) <= t.queue.now <= at
    requires t.queue.rows == [NewRow(Reply(proposedAt), Status.CoolingOff)] && t.auth == NobodyAsked()
    ensures Arrives(window, s, S.Sys(t.queue.(rows := [NewRow(Reply(proposedAt), Status.Pending)], now := at), t.auth))
  {
    hide Arrives, Reaches;
    var c := FirstDue(proposedAt, window);
    DueAtFirst(proposedAt, window);
    ActStep(t, CoolingTick(c, window));
    Further(window, s, t, S.Act(CoolingTick(c, window)));
    var w := t.queue.(rows := [NewRow(Reply(proposedAt), Status.Pending)]);
    assert PromoteDue(t.queue.rows, c - window * SECOND) == w.rows;
    Stay(w, []);
    Onward(w, [], w, Advance(at - w.now));
    QueueArrives(window, s, S.Sys(w, t.auth), w.(now := at));
  }

  /** Proposed, promoted at the first tick that can, and approved at `at`. */
  lemma ProposedAndDue(proposedAt: nat, window: nat, at: int) returns (s: S.Sys, u: S.Sys)
    requires proposedAt <= at && FirstDue(proposedAt, window) <= at
    ensures A.IsEmpty(s) && Arrives(window, s, u)
    ensures u.queue == s.queue.(now := at, rows := [NewRow(Reply(proposedAt), Status.Pending)])
    ensures s.queue == Nothing(1, proposedAt).queue
    ensures u.auth.grants == [Grant(SendReply, ["m"], Utc(at + HOUR), at, None)]
  {
    hide Arrives, Reaches;
    s := Nothing(1, proposedAt);
    var c := FirstDue(proposedAt, window);
    var m := if c < proposedAt then proposedAt else c;
    Here(window, s);
    ProposeAndWait(s.queue, proposedAt, m);
    var t := s.queue.(rows := [NewRow(Reply(proposedAt), Status.CoolingOff)], now := m);
    QueueArrives(window, s, s, t);
    TickAndWait(window, s, S.Sys(t, s.auth), proposedAt, at);
    var w := t.(rows := [NewRow(Reply(proposedAt), Status.Pending)], now := at);
    u := MintsGrant(window, s, S.Sys(w, s.auth), SendReply, "m", Utc(at + HOUR));
    assert PromoteGranted(w.rows, SendReply) == w.rows;
  }

  /** Nothing has been sent and the grant is fresh: the row passes. */
  lemma FirstReplyIsFit(q: Queue, grants: seq<Grant>, proposedAt: int)
    requires q.rows == [NewRow(Reply(proposedAt), Draining)] && q.emails == Inbox()
    requires grants == [Grant(SendReply, ["m"], Utc(q.now + HOUR), q.now, None)]
    ensures IsFit(q, grants, Reply(proposedAt))
  {
    assert IsLive(grants[0], SendReply, q.now) && Covers(grants[0], Some("m"));
    assert q.rows[..0] == [];
    assert VetFailure(q.emails, Reply(proposedAt)).None?;
  }

  lemma SentAtOnce(q: Queue, grants: seq<Grant>, proposedAt: int) returns (t: Queue)
    requires q.rows == [NewRow(Reply(proposedAt), Status.Pending)] && q.emails == Inbox() && q.history == map[]
    requires grants == [Grant(SendReply, ["m"], Utc(q.now + HOUR), q.now, None)]
    requires |q.drainers| == 1 && q.drainers[0].Idle? && !q.paused
    ensures Reaches(q, grants, t) && t.dispatches != []
    ensures IsSendAt(t.dispatches[|t.dispatches| - 1], proposedAt, q.now)
  {
    hide Reaches, IsFit;
    Stay(q, grants);
    t := ClaimNextInLine(q, grants, q, 0, 0, Reply(proposedAt));
    FirstReplyIsFit(t, grants, proposedAt);
    t := ReachAdapter(q, grants, t, 0);
    assert CanAccept(t, Reply(proposedAt));
    Send(q, grants, t, 0);
    t := AfterSend(t, 0);
  }

  /** A send proposed at one moment can go out at another exactly when the window, counted from the
      beginning of the second of the proposal, is over. */
  lemma EarliestDispatch(proposedAt: nat, window: nat, at: int)
    ensures (exists s: S.Sys, es: seq<S.Event> :: SendsAt(s, es, proposedAt, window, at)) <==>
            proposedAt <= at && FirstDue(proposedAt, window) <= at
  {
    if proposedAt <= at && FirstDue(proposedAt, window) <= at {
      var s, u := ProposedAndDue(proposedAt, window, at);
      var t := SentAtOnce(u.queue, u.auth.grants, proposedAt);
      QueueArrives(window, s, u, t);
      var es := RunOf(window, s, S.Sys(t, u.auth));
      assert SendsAt(s, es, proposedAt, window, at);
    }
    forall s: S.Sys, es: seq<S.Event> | SendsAt(s, es, proposedAt, window, at)
      ensures proposedAt <= at && FirstDue(proposedAt, window) <= at
    {
      NeverBeforeFirstDue(s, es, proposedAt, window, at);
    }
  }
}
