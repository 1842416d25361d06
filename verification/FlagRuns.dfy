/** A run in which a revert does not restore the flag: the original had found it set already. */
module FlagRuns {
  import opened Actions
  import opened Tables
  import opened Queue
  import opened Reach
  import opened Flights
  import opened Flags
  import O = Ownership
  import W = Lines
  import P = RepairRuns
  import R = Reasons
  import T = RoundTrip

  // ----- runs of the queue alone -----

  /** Nobody but the queue touches anything on the way. */
  ghost predicate Comes(m: Mail, ds: seq<Doing>, n: Mail) {
    Happen(m, ds) && Afterwards(m, ds) == n && forall k | 0 <= k < |ds| :: ds[k].Works?
  }

  ghost predicate Gets(m: Mail, n: Mail) { exists ds :: Comes(m, ds, n) }

  lemma Still(m: Mail)
    ensures Gets(m, m)
  {
    assert Comes(m, [], m);
  }

  lemma {:induction false} HappenExtends(m: Mail, ds: seq<Doing>, d: Doing)
    requires Happen(m, ds) && Can(Afterwards(m, ds), d)
    ensures Happen(m, ds + [d]) && Afterwards(m, ds + [d]) == Do(Afterwards(m, ds), d)
    decreases |ds|
  {
    hide Can, Do;
    if ds == [] {
      assert (ds + [d])[0] == d && (ds + [d])[1..] == [];
    } else {
      assert (ds + [d])[0] == ds[0] && (ds + [d])[1..] == ds[1..] + [d];
      HappenExtends(Do(m, ds[0]), ds[1..], d);
    }
  }

  lemma GetsOn(m: Mail, n: Mail, d: Doing)
    requires Gets(m, n) && d.Works? && Can(n, d)
    ensures Gets(m, Do(n, d))
  {
    hide Can, Do;
    var ds :| Comes(m, ds, n);
    HappenExtends(m, ds, d);
    assert Comes(m, ds + [d], Do(n, d));
  }

  lemma {:induction false} SendsGrow(q: Queue, es: seq<Event>, t: Queue)
    requires Path(q, [], es, t)
    ensures |q.dispatches| <= |t.dispatches|
    decreases |es|
  {
    hide Step, Enabled;
    if es != [] {
      R.DispatchesGrow(q, [], es[0]);
      SendsGrow(Step(q, [], es[0]), es[1..], t);
    }
  }

  /** Where nothing is sent, no trait is touched. */
  lemma {:induction false} QuietPath(m: Mail, n: Mail, es: seq<Event>, t: Queue)
    requires Gets(m, n) && Path(n.queue, [], es, t) && |t.dispatches| == |n.queue.dispatches|
    ensures Gets(m, n.(queue := t))
    decreases |es|
  {
    hide Step, Enabled, Gets;
    if es == [] {
      assert n.(queue := t) == n;
    } else {
      var d := Works(O.Tick([], es[0]));
      var u := Step(n.queue, [], es[0]);
      R.DispatchesGrow(n.queue, [], es[0]);
      SendsGrow(u, es[1..], t);
      assert !Lands(n.queue, es[0]);
      assert Do(n, d) == n.(queue := u);
      GetsOn(m, n, d);
      QuietPath(m, Do(n, d), es[1..], t);
      assert n.(queue := u).(queue := t) == n.(queue := t);
    }
  }

  lemma GetsQuietly(m: Mail, n: Mail, t: Queue)
    requires Gets(m, n) && Reaches(n.queue, [], t) && |t.dispatches| == |n.queue.dispatches|
    ensures Gets(m, n.(queue := t))
  {
    hide Gets;
    var es :| Path(n.queue, [], es, t);
    QuietPath(m, n, es, t);
  }

  // ----- one row from the queue to Graph -----

  function Marking(a: ActionType): Spec { Spec(Some("m"), a, 1, map[], 0, None) }

  predicate IsMark(a: ActionType) { a.MarkRead? || a.MarkUnread? }

  /** The one drainer is about to send row `i`. */
  predicate AtAdapter(q: Queue, i: nat, a: ActionType) {
    && |q.drainers| == 1 && q.drainers[0].Working? && q.drainers[0].stage.Dispatching? && i < |q.rows|
    && q.drainers[0].job.id == i && q.drainers[0].job.spec == Marking(a) && q.drainers[0].batch == []
  }

  predicate IsCalm(q: Queue) {
    q.now == 0 && !q.paused && q.calls == map[] && q.emails == W.Inbox() && |q.drainers| == 1
  }

  predicate IsAtRest(x: Drainer) { x.Idle? || (x.Looping? && x.batch == []) }

  lemma ComesToAdapter(q: Queue, i: nat, a: ActionType) returns (t: Queue)
    requires IsCalm(q) && W.Line(q, i, Marking(a)) && i + 1 == |q.rows| && i !in q.history && IsMark(a)
    requires IsAtRest(q.drainers[0])
    ensures Reaches(q, [], t) && AtAdapter(t, i, a) && IsCalm(t)
    ensures t.dispatches == q.dispatches && t.inverses == q.inverses
    ensures t.rows == q.rows[i := q.rows[i].(status := Draining)] && t.history == q.history[i := History(None, None)]
  {
    hide Reaches;
    Stay(q, []);
    var c := ClaimOne(q, i, a);
    assert IsFit(c, [], Marking(a));
    t := ReachAdapter(q, [], c, 0);
  }

  lemma BatchOfOne(q: Queue, i: nat, a: ActionType)
    requires W.Line(q, i, Marking(a)) && i + 1 == |q.rows|
    ensures IsDrainable(q.rows, [Picked(i, Marking(a))], BATCH_SIZE)
  {
    W.UpcomingIsDrainable(q, i, Marking(a), 1);
    assert W.Upcoming(i, 1, Marking(a)) == [Picked(i, Marking(a))];
  }

  /** The drainer polls, again if it is at the end of a batch. */
  lemma PollOne(q: Queue, i: nat, a: ActionType)
    requires IsCalm(q) && W.Line(q, i, Marking(a)) && i + 1 == |q.rows| && IsAtRest(q.drainers[0])
    ensures Reaches(q, [], At(q, 0, Looping([Picked(i, Marking(a))], 0)))
  {
    hide Reaches, W.Line, IsDrainable;
    var b := [Picked(i, Marking(a))];
    BatchOfOne(q, i, a);
    Stay(q, []);
    var r := At(q, 0, Idle);
    if q.drainers[0].Looping? {
      EndTick(q, [], q, 0, q.drainers[0].processed);
    } else {
      assert r == q;
    }
    Poll(q, [], r, 0, b);
    assert At(r, 0, Looping(b, 0)) == At(q, 0, Looping(b, 0));
  }

  lemma ClaimOne(q: Queue, i: nat, a: ActionType) returns (t: Queue)
    requires IsCalm(q) && W.Line(q, i, Marking(a)) && i + 1 == |q.rows| && IsAtRest(q.drainers[0])
    ensures Reaches(q, [], t) && |t.drainers| == 1
    ensures t == At(q, 0, t.drainers[0]).(rows := q.rows[i := q.rows[i].(status := Draining)])
    ensures t.drainers[0] == Working(Claimed, StartJob(Picked(i, Marking(a))), [], 1)
  {
    hide Reaches;
    PollOne(q, i, a);
    var u := At(q, 0, Looping([Picked(i, Marking(a))], 0));
    Claim(q, [], u, 0);
    t := AfterClaim(u, 0);
  }

  lemma MarkIsAccepted(q: Queue, a: ActionType)
    requires IsMark(a)
    ensures CanAccept(q, Marking(a)) && !IsRevertRow(Marking(a)) && !IsSendFamily(a)
  {
  }

  lemma SendTouches(q: Queue, i: nat, a: ActionType)
    requires AtAdapter(q, i, a) && IsMark(a)
    ensures Lands(q, Drain(0, Go)) && TouchOf(q, Drain(0, Go)) == Touch("m", IsRead, a.MarkRead?, Some(i))
  {
  }

  /** Graph takes the PATCH. */
  lemma SendsMark(m: Mail, n: Mail, i: nat, a: ActionType) returns (t: Mail)
    requires Gets(m, n) && AtAdapter(n.queue, i, a) && IsMark(a) && CanAccept(n.queue, Marking(a))
    ensures Gets(m, t) && t.queue == AfterSend(n.queue, 0)
    ensures t.traits == if a.MarkRead? then n.traits + {("m", IsRead)} else n.traits - {("m", IsRead)}
  {
    hide Gets, CanAccept, Step, Enabled, AfterSend, Lands, TouchOf, IsMark;
    SendStep([], n.queue, 0);
    SendTouches(n.queue, i, a);
    var d := Works(O.Tick([], Drain(0, Go)));
    t := Do(n, d);
    GetsOn(m, n, d);
  }

  /** And the row is marked applied. */
  lemma Finishes(q: Queue, i: nat, a: ActionType)
    requires AtAdapter(q, i, a) && CanAccept(q, Marking(a))
    ensures Reaches(AfterSend(q, 0), [], Landed(q, 0))
  {
    hide Reaches, CanAccept, AfterSend, Landed;
    Stay(AfterSend(q, 0), []);
    LandAfter(AfterSend(q, 0), [], q, 0);
  }

  lemma MarkLands(q: Queue, i: nat, a: ActionType)
    requires AtAdapter(q, i, a) && IsMark(a) && IsCalm(q) && CanAccept(q, Marking(a))
    ensures var t := Landed(q, 0);
            && IsCalm(t) && IsAtRest(t.drainers[0]) && t.history == q.history && t.inverses == q.inverses
            && |t.dispatches| == |AfterSend(q, 0).dispatches| && |t.rows| == |q.rows|
            && t.rows[i].status.Applied? && t.rows[i].spec == q.rows[i].spec && t.rows[i].terminalAt == Some(0)
            && forall k | 0 <= k < |q.rows| && k != i :: t.rows[k] == q.rows[k]
  {
    hide CanAccept;
    MarkIsAccepted(q, a);
  }

  /** Row `i`, waiting in the queue, becomes applied. */
  lemma Marks(m: Mail, n: Mail, i: nat, a: ActionType) returns (t: Mail)
    requires Gets(m, n) && IsCalm(n.queue) && W.Line(n.queue, i, Marking(a)) && i + 1 == |n.queue.rows|
    requires i !in n.queue.history && IsMark(a)
    requires IsAtRest(n.queue.drainers[0])
    ensures Gets(m, t) && IsCalm(t.queue) && |t.queue.rows| == |n.queue.rows|
    ensures IsAtRest(t.queue.drainers[0])
    ensures forall k | 0 <= k < i :: t.queue.rows[k] == n.queue.rows[k]
    ensures var r := t.queue.rows[i]; r.status.Applied? && r.spec == Marking(a) && r.terminalAt == Some(0)
    ensures t.queue.history == n.queue.history[i := History(None, None)] && t.queue.inverses == n.queue.inverses
    ensures t.traits == if a.MarkRead? then n.traits + {("m", IsRead)} else n.traits - {("m", IsRead)}
  {
    hide Gets, Reaches, CanAccept, AfterSend, Landed;
    var q := ComesToAdapter(n.queue, i, a);
    MarkIsAccepted(q, a);
    GetsQuietly(m, n, q);
    t := SendsMark(m, n.(queue := q), i, a);
    Finishes(q, i, a);
    MarkLands(q, i, a);
    GetsQuietly(m, t, Landed(q, 0));
    t := t.(queue := Landed(q, 0));
  }

  // ----- the revert -----

  /** The user reverts row 0. */
  lemma Reverts(q: Queue) returns (t: Queue)
    requires IsCalm(q) && |q.rows| == 1 && q.history == map[0 := History(None, None)]
    requires q.rows[0].spec == Marking(MarkRead) && q.rows[0].status.Applied? && q.rows[0].terminalAt == Some(0)
    ensures Reaches(q, [], t) && IsCalm(t) && t.drainers == q.drainers && t.dispatches == q.dispatches
    ensures t.rows == q.rows + [NewRow(Marking(MarkUnread), Status.Pending)] && t.history.Keys == {0}
    ensures Inverse(0, 1) in t.inverses
  {
    hide Reaches;
    Stay(q, []);
    Onward(q, [], q, Revert(0, 0));
    var u := q.(calls := map[0 := Reverting(0, Marking(MarkRead))]);
    assert Step(q, [], Revert(0, 0)) == u;
    var v := q.(calls := map[0 := Resolved(0, Marking(MarkUnread), true)]);
    assert CallStep(u, [], 0) == v by { Resolves(u, v); }
    P.CallStepIs(q, u, v);
    t := RevertClaims(q, v);
  }

  lemma Resolves(u: Queue, v: Queue)
    requires u.calls == map[0 := Reverting(0, Marking(MarkRead))] && u.now == 0
    requires u.history == map[0 := History(None, None)]
    requires v == u.(calls := map[0 := Resolved(0, Marking(MarkUnread), true)])
    ensures CallStep(u, [], 0) == v
  {
    assert InverseOf(Marking(MarkRead), 0, Some(History(None, None)), 0) == Some(Marking(MarkUnread));
  }

  lemma RevertClaims(o: Queue, q: Queue) returns (t: Queue)
    requires Reaches(o, [], q) && q.calls == map[0 := Resolved(0, Marking(MarkUnread), true)]
    requires q.history == map[0 := History(None, None)] && |q.rows| == 1
    ensures Reaches(o, [], t) && t == q.(rows := t.rows, calls := map[], history := t.history, inverses := t.inverses)
    ensures t.rows == q.rows + [NewRow(Marking(MarkUnread), Status.Pending)] && t.history.Keys == {0}
    ensures Inverse(0, 1) in t.inverses
  {
    hide Reaches;
    var u := q.(calls := map[0 := Call.Claiming(0, Marking(MarkUnread))]);
    assert CallStep(q, [], 0) == u;
    P.CallStepIs(o, q, u);
    var v := q.(calls := map[0 := Inverting(0, Marking(MarkUnread))], history := map[0 := History(None, Some(0))]);
    assert CallStep(u, [], 0) == v;
    P.CallStepIs(o, u, v);
    t := v.(calls := map[], rows := q.rows + [NewRow(Marking(MarkUnread), Status.Pending)],
            inverses := q.inverses + [Inverse(0, 1)]);
    assert v.calls - {0} == map[];
    assert CallStep(v, [], 0) == t;
    P.CallStepIs(o, v, t);
    assert t.inverses[|q.inverses|] == Inverse(0, 1);
  }

  // ----- the run -----

  /** One email, which has been read, and an empty queue. */
  function AlreadyRead(): Mail { Mail(P.Empty().queue, {("m", IsRead)}, []) }

  /** Mark read, revert: both rows are applied, and the email is unread. */
  ghost predicate IsUnreadNow(t: Mail) {
    && |t.queue.rows| == 2 && Inverse(0, 1) in t.queue.inverses
    && t.queue.rows[0].spec.action.MarkRead? && t.queue.rows[0].status.Applied?
    && t.queue.rows[1].spec.action.MarkUnread? && t.queue.rows[1].status.Applied?
    && ("m", IsRead) !in t.traits
  }

  lemma Proposed(m: Mail) returns (n: Mail)
    requires m == AlreadyRead()
    ensures Gets(m, n) && n == m.(queue := m.queue.(rows := [NewRow(Marking(MarkRead), Status.Pending)]))
  {
    Still(m);
    var d := Works(O.Tick([], Propose(Marking(MarkRead))));
    n := m.(queue := m.queue.(rows := [NewRow(Marking(MarkRead), Status.Pending)]));
    assert Step(m.queue, [], Propose(Marking(MarkRead))) == n.queue;
    hide Gets;
    GetsOn(m, m, d);
  }

  /** Reverting a `mark_read` of an email that was read before leaves it unread. */
  lemma NoOpIsNotUndone()
    ensures exists ds: seq<Doing>, t: Mail :: Comes(AlreadyRead(), ds, t) && IsUnreadNow(t)
    ensures T.Fresh(AlreadyRead().queue) && AlreadyRead().touches == []
  {
    var m := AlreadyRead();
    hide Gets, Reaches, Comes;
    var n := Proposed(m);
    assert IsCalm(n.queue) && IsAtRest(n.queue.drainers[0]) && W.Line(n.queue, 0, Marking(MarkRead));
    n := Marks(m, n, 0, MarkRead);
    var r := Reverts(n.queue);
    GetsQuietly(m, n, r);
    assert W.Line(r, 1, Marking(MarkUnread));
    var t := Marks(m, n.(queue := r), 1, MarkUnread);
    assert IsUnreadNow(t);
    Found(m, t);
  }

  lemma Found(m: Mail, t: Mail)
    requires Gets(m, t) && IsUnreadNow(t)
    ensures exists ds: seq<Doing>, t: Mail :: Comes(m, ds, t) && IsUnreadNow(t)
  {
    var ds :| Comes(m, ds, t);
  }
}
