/** Runs of the queue, and what the guarded claim gives: a row is in at most one drainer's hands. */
module Ownership {
  import opened Actions
  import opened Timestamps
  import opened Tables
  import opened Queue

  /** One step of a run, with the grants table as it stood at that step. */
  datatype Tick = Tick(grants: seq<Grant>, event: Event)

  ghost predicate Runs(q: Queue, ts: seq<Tick>)
    decreases |ts|
  {
    ts == [] || (Enabled(q, ts[0].event) && Runs(Step(q, ts[0].grants, ts[0].event), ts[1..]))
  }

  ghost function After(q: Queue, ts: seq<Tick>): Queue
    requires Runs(q, ts)
    decreases |ts|
  {
    if ts == [] then q else After(Step(q, ts[0].grants, ts[0].event), ts[1..])
  }

  /** The row a drainer works on is the row that was claimed; it has been `pending`, so it is neither
      cooling off nor cancelled. Its verdict can be written at three stages only, and is at two. */
  predicate AtWork(rows: seq<Row>, x: Drainer) {
    x.Working? ==>
      && x.job.id < |rows|
      && rows[x.job.id].spec == x.job.spec
      && !rows[x.job.id].status.CoolingOff? && !rows[x.job.id].status.Cancelled?
      && (x.stage.Repairing? || x.stage.Notifying? ==> x.job.late)
      && (x.job.late ==> x.stage.Repairing? || x.stage.Notifying? || x.stage.Recovering?)
  }

  predicate BatchKnown(rows: seq<Row>, x: Drainer) {
    (x.Looping? || x.Working?) ==>
      forall i | 0 <= i < |x.batch| :: x.batch[i].id < |rows| && rows[x.batch[i].id].spec == x.batch[i].spec
  }

  predicate Ready(rows: seq<Row>, x: Drainer) { AtWork(rows, x) && BatchKnown(rows, x) }

  ghost predicate Known(q: Queue) {
    forall d | 0 <= d < |q.drainers| :: Ready(q.rows, q.drainers[d])
  }

  /** The row a drainer's next step may write. */
  function Target(x: Drainer): int {
    if x.Working? then x.job.id else if x.Looping? && x.batch != [] then x.batch[0].id else -1
  }

  /** A step of `x` on the table: at most its target row changes, never a spec, and a new claim was
      `pending`. */
  predicate Steady(rows: seq<Row>, x: Drainer, rows': seq<Row>, y: Drainer) {
    && |rows'| == |rows|
    && (forall i | 0 <= i < |rows| ::
          rows'[i].spec == rows[i].spec && (i != Target(x) ==> rows'[i] == rows[i]) &&
          (rows'[i].status.CoolingOff? || rows'[i].status.Cancelled? ==> rows'[i] == rows[i]))
    && Ready(rows', y)
    && (y.Working? ==> if x.Working? then y.job.id == x.job.id
                       else x.Looping? && y.job.id == Target(x) && rows[y.job.id].status.Pending?)
    && (x.Looping? && !y.Working? ==> rows' == rows)
  }

  /** How control can have reached the stage `y` is at. */
  predicate Edge(q: Queue, grants: seq<Grant>, x: Drainer, c: Choice, y: Drainer)
    requires x.Working? && y.Working?
  {
    var s := x.job.spec;
    && y.batch == x.batch && y.processed == x.processed
    && (c == Go || (y.stage.Failing? && c != Throw) || (y.stage.Releasing? && c == Fail) ||
        (y.stage.Recovering? && c == Throw))
    && match y.stage
       case Claimed => false
       case Releasing => x.stage.Claimed? && y.job == x.job && (c == Fail || q.paused)
       case Checking => x.stage.Claimed? && y.job == x.job && !q.paused
       case Scanning => x.stage.Checking? && s.tier != 1 && y.job == x.job.(checkedAt := q.now)
       case Vetting =>
         || (x.stage.Checking? && s.tier == 1 && y.job == x.job)
         || (x.stage.Scanning? && FindGrant(grants, s.action, s.emailId, x.job.checkedAt).Some? &&
             y.job == x.job.(grant := FindGrant(grants, s.action, s.emailId, x.job.checkedAt)))
       case Waiting =>
         x.stage.Scanning? && y.job == x.job && FindGrant(grants, s.action, s.emailId, x.job.checkedAt).None?
       case Capping => x.stage.Vetting? && y.job == x.job && IsSendFamily(s.action)
       case Counting => x.stage.Capping? && y.job == x.job.(since := Midnight(q.now))
       case Capturing => x.stage.Vetting? && y.job == x.job && IsMoveFamily(s.action) && !IsSendFamily(s.action)
       case Recording =>
         || (x.stage.Vetting? && y.job == x.job && !IsMoveFamily(s.action) && !IsSendFamily(s.action))
         || (x.stage.Counting? && y.job == x.job && BudgetConsumed(q.rows, x.job.since) < DAILY_SEND_CAP)
         || (x.stage.Capturing? &&
             s.emailId.Some? && s.emailId.value in q.mailbox && q.mailbox[s.emailId.value] != "" &&
             y.job == x.job.(pre := Some(q.mailbox[s.emailId.value]), seen := |q.moves|))
       case Dispatching => x.stage.Recording? && y.job == x.job && x.job.id !in q.history
       case Stamping => x.stage.Dispatching? && y.job == x.job
       case Marking => x.stage.Stamping? && y.job == x.job.(stamp := q.now)
       case Repairing => x.stage.Marking? && y.job == x.job.(late := true) && IsRevertRow(s) && s.emailId.Some?
       case Failing =>
         && y.job == x.job.(reason := y.job.reason, stamp := q.now)
         && (x.stage.Checking? || x.stage.Scanning? || x.stage.Vetting? || x.stage.Counting? || x.stage.Capturing? ||
             (x.stage.Dispatching? && c != Go))
       case Notifying => x.stage.Failing? && y.job == x.job.(late := true) && s.tier != 1
       case Recovering =>
         && y.job == x.job.(reason := y.job.reason, stamp := q.now)
         && (if c == Throw then Guarded(x.stage) else x.stage.Recording? && x.job.id in q.history)
  }

  /** A row leaves the hand by the write that ends its stage, or because the worker died. */
  predicate LetsGo(x: Drainer, c: Choice, y: Drainer)
    requires x.Working? && !y.Working?
  {
    && (y.Idle? || y == Looping(x.batch, x.processed))
    && (c == Go ==> x.stage.Releasing? || x.stage.Marking? || x.stage.Repairing? || x.stage.Failing? ||
                    x.stage.Notifying? || x.stage.Recovering? || x.stage.Waiting?)
    && (c == Go || c == Crash || (c == Lose && x.stage.Recovering?))
  }

  lemma WorkEdge(q: Queue, grants: seq<Grant>, x: Drainer, c: Choice)
    requires x.Working? && CanWork(q, x, c)
    ensures var y := WorkNext(q, grants, x, c);
            if y.Working? then Edge(q, grants, x, c, y) else LetsGo(x, c, y)
  {
    hide FindGrant, BudgetConsumed, VetFailure, IsRevertRow, CanAccept;
    if c == Go {
      match x.stage
      case Checking => assert CheckNext(q.now, x).Working?;
      case Scanning => assert ScanNext(q.now, grants, x).Working?;
      case Vetting => assert VetNext(q.now, q.emails, x).Working?;
      case _ =>
    }
  }

  /** One step of a drainer, seen from where it lands. */
  predicate Follows(q: Queue, grants: seq<Grant>, x: Drainer, c: Choice, y: Drainer) {
    match x
    case Working(_, _, _, _) => if y.Working? then Edge(q, grants, x, c, y) else LetsGo(x, c, y)
    case Looping(_, _) =>
      y.Working? ==> && x.batch != [] && IsClaimable(q.rows, x.batch[0]) && c == Go
                     && y == Working(Claimed, StartJob(x.batch[0]), x.batch[1..], x.processed + 1)
    case _ => !y.Working?
  }

  lemma DrainFollows(q: Queue, grants: seq<Grant>, x: Drainer, c: Choice)
    requires CanTake(q, x, c)
    ensures Follows(q, grants, x, c, DrainNext(q, grants, x, c))
  {
    if x.Working? { WorkEdge(q, grants, x, c); }
  }

  lemma WorkSteady(q: Queue, grants: seq<Grant>, x: Drainer, c: Choice, y: Drainer)
    requires x.Working? && Ready(q.rows, x)
    requires if y.Working? then Edge(q, grants, x, c, y) else LetsGo(x, c, y)
    ensures Steady(q.rows, x, RowsAfter(q.rows, x, c), y)
  {
  }

  lemma DrainSteady(q: Queue, grants: seq<Grant>, x: Drainer, c: Choice)
    requires Ready(q.rows, x) && CanTake(q, x, c)
    ensures Steady(q.rows, x, RowsAfter(q.rows, x, c), DrainNext(q, grants, x, c))
  {
    if x.Working? {
      WorkEdge(q, grants, x, c);
      WorkSteady(q, grants, x, c, WorkNext(q, grants, x, c));
    }
  }

  /** What every other actor does to the table: it may add rows and change statuses, but no guarded
      statement outside the drainer touches a row that is being drained or has been applied. */
  predicate Spares(rows: seq<Row>, rows': seq<Row>) {
    && |rows| <= |rows'|
    && forall i | 0 <= i < |rows| ::
         rows'[i].spec == rows[i].spec &&
         (rows[i].status.Draining? || rows[i].status.Applied? || rows[i].status.Cancelled? ==> rows'[i] == rows[i])
  }

  lemma OthersSpare(q: Queue, grants: seq<Grant>, e: Event)
    requires Enabled(q, e) && !e.Drain?
    ensures Spares(q.rows, Step(q, grants, e).rows) && Step(q, grants, e).drainers == q.drainers
  {
  }

  /** Only a drainer's MARK_APPLIED applies a row, and only `propose_action` starts a cooling-off. */
  predicate NeverApplies(rows: seq<Row>, rows': seq<Row>) {
    forall i | 0 <= i < |rows'| ::
      && (rows'[i].status.Applied? ==> i < |rows| && rows'[i] == rows[i])
      && (i < |rows| && (rows'[i].status.CoolingOff? || rows'[i].status.Cancelled?) ==>
            rows[i].status.CoolingOff? || rows[i].status.Cancelled?)
  }

  lemma OthersNeverApply(q: Queue, grants: seq<Grant>, e: Event)
    requires Enabled(q, e) && !e.Drain?
    ensures NeverApplies(q.rows, Step(q, grants, e).rows)
    ensures Step(q, grants, e).dispatches == q.dispatches
  {
  }

  lemma StepKeepsKnown(q: Queue, grants: seq<Grant>, e: Event)
    requires Enabled(q, e) && Known(q)
    ensures Known(Step(q, grants, e))
  {
    var t := Step(q, grants, e);
    if e.Drain? {
      assert Ready(q.rows, q.drainers[e.d]);
      DrainSteady(q, grants, q.drainers[e.d], e.choice);
    } else {
      OthersSpare(q, grants, e);
      OthersNeverApply(q, grants, e);
    }
    forall d | 0 <= d < |t.drainers| ensures Ready(t.rows, t.drainers[d]) {
      if !(e.Drain? && d == e.d) { assert Ready(q.rows, q.drainers[d]); }
    }
  }

  lemma {:induction false} RunKeepsKnown(q: Queue, ts: seq<Tick>)
    requires Runs(q, ts) && Known(q)
    ensures Known(After(q, ts))
    decreases |ts|
  {
    if ts != [] {
      StepKeepsKnown(q, ts[0].grants, ts[0].event);
      RunKeepsKnown(Step(q, ts[0].grants, ts[0].event), ts[1..]);
    }
  }

  // ----- one holder per row, and the write that breaks it -----

  /** The drainer has claimed the row and has not written its verdict yet. */
  predicate Holds(x: Drainer, id: nat) { x.Working? && !x.job.late && x.job.id == id }

  predicate Apart(x: Drainer, y: Drainer) { x.Working? && Holds(x, x.job.id) ==> !Holds(y, x.job.id) }

  predicate InHand(rows: seq<Row>, x: Drainer) {
    x.Working? && Holds(x, x.job.id) ==> x.job.id < |rows| && rows[x.job.id].status.Draining?
  }

  /** A row has at most one holder, and is `draining` while it has one. */
  ghost predicate Owned(q: Queue) {
    && (forall d | 0 <= d < |q.drainers| :: InHand(q.rows, q.drainers[d]))
    && (forall d, e | 0 <= d < |q.drainers| && 0 <= e < |q.drainers| && d != e :: Apart(q.drainers[d], q.drainers[e]))
  }

  ghost predicate HeldByAnother(xs: seq<Drainer>, d: nat, id: nat) {
    exists e | 0 <= e < |xs| :: e != d && Holds(xs[e], id)
  }

  /** The catch-all's unconditional MARK_FAILED, after an exception that came when the verdict was
      written already, on a row that another drainer has claimed since. */
  ghost predicate Trespasses(q: Queue, e: Event)
    requires Enabled(q, e)
  {
    e.Drain? && Completes(q.drainers[e.d], e.choice, Recovering) && q.drainers[e.d].job.late &&
    HeldByAnother(q.drainers, e.d, q.drainers[e.d].job.id)
  }

  /** What a step of `x` that is no trespass leaves of a row `y` holds. */
  lemma HandsOff(q: Queue, grants: seq<Grant>, x: Drainer, c: Choice, y: Drainer)
    requires CanTake(q, x, c) && Ready(q.rows, x) && Ready(q.rows, y) && InHand(q.rows, y) && Apart(x, y)
    requires y.Working? && Holds(y, y.job.id)
    requires !(Completes(x, c, Recovering) && x.job.late && x.job.id == y.job.id)
    ensures |RowsAfter(q.rows, x, c)| == |q.rows| && RowsAfter(q.rows, x, c)[y.job.id] == q.rows[y.job.id]
    ensures Apart(DrainNext(q, grants, x, c), y) && Apart(y, DrainNext(q, grants, x, c))
  {
    DrainSteady(q, grants, x, c);
    DrainFollows(q, grants, x, c);
  }

  /** What a step leaves in the drainer's own hands. */
  lemma OwnHand(q: Queue, grants: seq<Grant>, x: Drainer, c: Choice)
    requires CanTake(q, x, c) && Ready(q.rows, x) && InHand(q.rows, x)
    ensures InHand(RowsAfter(q.rows, x, c), DrainNext(q, grants, x, c))
  {
    DrainSteady(q, grants, x, c);
    DrainFollows(q, grants, x, c);
  }

  lemma DrainKeepsOwned(q: Queue, grants: seq<Grant>, d: nat, c: Choice)
    requires CanDrain(q, d, c) && Known(q) && Owned(q) && !Trespasses(q, Drain(d, c))
    ensures Owned(DrainStep(q, grants, d, c))
  {
    hide DrainNext, RowsAfter, CanTake, AtWork, BatchKnown;
    var x, t := q.drainers[d], DrainStep(q, grants, d, c);
    assert Ready(q.rows, x) && InHand(q.rows, x);
    OwnHand(q, grants, x, c);
    forall e | 0 <= e < |t.drainers| && e != d
      ensures InHand(t.rows, t.drainers[e])
      ensures Apart(t.drainers[e], t.drainers[d]) && Apart(t.drainers[d], t.drainers[e])
    {
      var y := q.drainers[e];
      assert Ready(q.rows, y) && InHand(q.rows, y) && Apart(x, y);
      if y.Working? && Holds(y, y.job.id) { HandsOff(q, grants, x, c, y); }
    }
  }

  lemma TrespassBreaks(q: Queue, grants: seq<Grant>, d: nat, c: Choice)
    requires CanDrain(q, d, c) && Known(q) && Trespasses(q, Drain(d, c))
    ensures !Owned(DrainStep(q, grants, d, c))
  {
    var x, t := q.drainers[d], DrainStep(q, grants, d, c);
    assert Ready(q.rows, x);
    var e :| 0 <= e < |q.drainers| && e != d && Holds(q.drainers[e], x.job.id);
    assert t.drainers[e] == q.drainers[e] && t.rows[x.job.id].status.Failed?;
    assert !InHand(t.rows, t.drainers[e]);
  }

  /** A step keeps ownership exactly if it is no trespass. */
  lemma StepKeepsOwned(q: Queue, grants: seq<Grant>, e: Event)
    requires Enabled(q, e) && Known(q) && Owned(q)
    ensures Owned(Step(q, grants, e)) <==> !Trespasses(q, e)
  {
    if e.Drain? {
      if Trespasses(q, e) {
        TrespassBreaks(q, grants, e.d, e.choice);
      } else {
        DrainKeepsOwned(q, grants, e.d, e.choice);
      }
    } else {
      OthersSpare(q, grants, e);
      var t := Step(q, grants, e);
      forall d | 0 <= d < |t.drainers| ensures InHand(t.rows, t.drainers[d]) { assert InHand(q.rows, q.drainers[d]); }
    }
  }

  ghost predicate AlwaysOwned(q: Queue, ts: seq<Tick>)
    requires Runs(q, ts)
    decreases |ts|
  {
    Owned(q) && (ts != [] ==> AlwaysOwned(Step(q, ts[0].grants, ts[0].event), ts[1..]))
  }

  ghost predicate Trespassed(q: Queue, ts: seq<Tick>)
    requires Runs(q, ts)
    decreases |ts|
  {
    ts != [] && (Trespasses(q, ts[0].event) || Trespassed(Step(q, ts[0].grants, ts[0].event), ts[1..]))
  }

  /** With any number of drainers and any interleaving, no two ever hold the same row, exactly if no
      late MARK_FAILED ever hits a row that another drainer holds. */
  lemma {:induction false} OwnedIffNoTrespass(q: Queue, ts: seq<Tick>)
    requires Runs(q, ts) && Known(q) && Owned(q)
    ensures AlwaysOwned(q, ts) <==> !Trespassed(q, ts)
    decreases |ts|
  {
    if ts != [] {
      var t := Step(q, ts[0].grants, ts[0].event);
      StepKeepsOwned(q, ts[0].grants, ts[0].event);
      StepKeepsKnown(q, ts[0].grants, ts[0].event);
      if Owned(t) { OwnedIffNoTrespass(t, ts[1..]); } else { assert !AlwaysOwned(t, ts[1..]); }
    }
  }

  // ----- when there is none -----

  /** Past its verdict, and not at the notification of a failure. */
  predicate Applying(x: Drainer) { x.Working? && x.job.late && !x.stage.Notifying? }

  /** A row that a drainer may still fail after its verdict is applied, and there is one such drainer. */
  predicate Tidy(rows: seq<Row>, x: Drainer) {
    Applying(x) ==> x.job.id < |rows| && rows[x.job.id].status.Applied?
  }

  predicate LateApart(x: Drainer, y: Drainer) { Applying(x) && Applying(y) ==> x.job.id != y.job.id }

  ghost predicate Undisputed(q: Queue) {
    && Owned(q)
    && (forall d | 0 <= d < |q.drainers| :: Tidy(q.rows, q.drainers[d]))
    && (forall d, e | 0 <= d < |q.drainers| && 0 <= e < |q.drainers| && d != e ::
          LateApart(q.drainers[d], q.drainers[e]))
  }

  /** No exception leaves the notification of a failure. */
  predicate NotifiesWell(q: Queue, e: Event)
    requires Enabled(q, e)
  {
    !(e.Drain? && e.choice == Throw && q.drainers[e.d].Working? && q.drainers[e.d].stage.Notifying?)
  }

  lemma TidyHands(q: Queue, grants: seq<Grant>, x: Drainer, c: Choice)
    requires CanTake(q, x, c) && Ready(q.rows, x) && Tidy(q.rows, x)
    requires !(c == Throw && x.Working? && x.stage.Notifying?)
    ensures Tidy(RowsAfter(q.rows, x, c), DrainNext(q, grants, x, c))
  {
    DrainSteady(q, grants, x, c);
    DrainFollows(q, grants, x, c);
  }

  /** A step of `x` leaves alone a row that `y` has applied. */
  lemma TidyOther(q: Queue, grants: seq<Grant>, x: Drainer, c: Choice, y: Drainer)
    requires CanTake(q, x, c) && Ready(q.rows, x) && Ready(q.rows, y)
    requires InHand(q.rows, x) && Tidy(q.rows, x) && Tidy(q.rows, y) && LateApart(x, y)
    requires !(c == Throw && x.Working? && x.stage.Notifying?)
    ensures Tidy(RowsAfter(q.rows, x, c), y)
    ensures LateApart(DrainNext(q, grants, x, c), y) && LateApart(y, DrainNext(q, grants, x, c))
  {
    DrainSteady(q, grants, x, c);
    DrainFollows(q, grants, x, c);
  }

  lemma UndisputedIsSafe(q: Queue, e: Event)
    requires Enabled(q, e) && Known(q) && Undisputed(q)
    ensures !Trespasses(q, e)
  {
    if e.Drain? && q.drainers[e.d].Working? && q.drainers[e.d].job.late {
      var x := q.drainers[e.d];
      assert Tidy(q.rows, x);
      forall f | 0 <= f < |q.drainers| && f != e.d
        ensures !(x.stage.Recovering? && Holds(q.drainers[f], x.job.id))
      {
        assert InHand(q.rows, q.drainers[f]);
      }
    }
  }

  lemma StepKeepsUndisputed(q: Queue, grants: seq<Grant>, e: Event)
    requires Enabled(q, e) && Known(q) && Undisputed(q) && NotifiesWell(q, e)
    ensures Undisputed(Step(q, grants, e))
  {
    hide DrainNext, RowsAfter, CanTake, AtWork, BatchKnown;
    var t := Step(q, grants, e);
    UndisputedIsSafe(q, e);
    StepKeepsOwned(q, grants, e);
    if e.Drain? {
      var x := q.drainers[e.d];
      assert Ready(q.rows, x) && InHand(q.rows, x) && Tidy(q.rows, x);
      TidyHands(q, grants, x, e.choice);
      forall f | 0 <= f < |t.drainers| && f != e.d
        ensures Tidy(t.rows, t.drainers[f])
        ensures LateApart(t.drainers[f], t.drainers[e.d]) && LateApart(t.drainers[e.d], t.drainers[f])
      {
        assert Ready(q.rows, q.drainers[f]) && Tidy(q.rows, q.drainers[f]) && LateApart(x, q.drainers[f]);
        TidyOther(q, grants, x, e.choice, q.drainers[f]);
      }
    } else {
      OthersSpare(q, grants, e);
      forall d | 0 <= d < |t.drainers| ensures Tidy(t.rows, t.drainers[d]) { assert Tidy(q.rows, q.drainers[d]); }
    }
  }

  ghost predicate AllNotifyWell(q: Queue, ts: seq<Tick>)
    requires Runs(q, ts)
    decreases |ts|
  {
    ts != [] ==> NotifiesWell(q, ts[0].event) && AllNotifyWell(Step(q, ts[0].grants, ts[0].event), ts[1..])
  }

  /** If no notification raises, no two drainers ever hold the same row. */
  lemma {:induction false} QuietNotificationsKeepOwned(q: Queue, ts: seq<Tick>)
    requires Runs(q, ts) && Known(q) && Undisputed(q) && AllNotifyWell(q, ts)
    ensures AlwaysOwned(q, ts) && Undisputed(After(q, ts))
    decreases |ts|
  {
    if ts != [] {
      StepKeepsKnown(q, ts[0].grants, ts[0].event);
      StepKeepsUndisputed(q, ts[0].grants, ts[0].event);
      QuietNotificationsKeepOwned(Step(q, ts[0].grants, ts[0].event), ts[1..]);
    }
  }

  /** The worker's one drainer has nobody to trespass on. */
  lemma {:induction false} OneDrainerKeepsOwned(q: Queue, ts: seq<Tick>)
    requires Runs(q, ts) && Known(q) && Owned(q) && |q.drainers| <= 1
    ensures AlwaysOwned(q, ts)
    decreases |ts|
  {
    if ts != [] {
      var t := Step(q, ts[0].grants, ts[0].event);
      StepKeepsOwned(q, ts[0].grants, ts[0].event);
      StepKeepsKnown(q, ts[0].grants, ts[0].event);
      assert |t.drainers| == |q.drainers|;
      OneDrainerKeepsOwned(t, ts[1..]);
    }
  }

  // ----- nothing is left behind -----

  ghost predicate IsHeld(xs: seq<Drainer>, id: nat) {
    exists d | 0 <= d < |xs| :: Holds(xs[d], id)
  }

  ghost predicate AllHeld(q: Queue) {
    forall id | 0 <= id < |q.rows| && q.rows[id].status.Draining? :: IsHeld(q.drainers, id)
  }

  /** The worker was not killed mid-row and the last-resort MARK_FAILED did not fail as well. */
  predicate Survives(e: Event) {
    e.Drain? ==> e.choice != Crash && e.choice != Lose
  }

  /** A row that is still `draining` after its holder's step is still in its hands. */
  lemma LettingGoWrites(q: Queue, grants: seq<Grant>, x: Drainer, c: Choice, id: nat)
    requires CanTake(q, x, c) && Ready(q.rows, x) && Holds(x, id) && c != Crash && c != Lose
    requires var rows := RowsAfter(q.rows, x, c); id < |rows| && rows[id].status.Draining?
    ensures Holds(DrainNext(q, grants, x, c), id)
  {
    DrainFollows(q, grants, x, c);
  }

  lemma DrainKeepsHeld(q: Queue, grants: seq<Grant>, d: nat, c: Choice, id: nat)
    requires CanDrain(q, d, c) && Known(q) && AllHeld(q) && c != Crash && c != Lose
    requires var t := DrainStep(q, grants, d, c); id < |t.rows| && t.rows[id].status.Draining?
    ensures IsHeld(DrainStep(q, grants, d, c).drainers, id)
  {
    var x, t := q.drainers[d], DrainStep(q, grants, d, c);
    assert Ready(q.rows, x);
    DrainSteady(q, grants, x, c);
    if q.rows[id].status.Draining? {
      var e :| 0 <= e < |q.drainers| && Holds(q.drainers[e], id);
      if e == d { LettingGoWrites(q, grants, x, c, id); }
      assert Holds(t.drainers[e], id);
    } else {
      assert Holds(t.drainers[d], id);
    }
  }

  lemma OthersNeverDrain(q: Queue, grants: seq<Grant>, e: Event)
    requires Enabled(q, e) && !e.Drain?
    ensures var t := Step(q, grants, e);
            forall id | 0 <= id < |t.rows| && t.rows[id].status.Draining? ::
              id < |q.rows| && q.rows[id].status.Draining?
  {
  }

  lemma StepKeepsHeld(q: Queue, grants: seq<Grant>, e: Event)
    requires Enabled(q, e) && Known(q) && AllHeld(q) && Survives(e)
    ensures AllHeld(Step(q, grants, e))
  {
    var t := Step(q, grants, e);
    if !e.Drain? {
      OthersSpare(q, grants, e);
      OthersNeverDrain(q, grants, e);
    }
    forall id | 0 <= id < |t.rows| && t.rows[id].status.Draining? ensures IsHeld(t.drainers, id) {
      if e.Drain? { DrainKeepsHeld(q, grants, e.d, e.choice, id); } else { assert IsHeld(q.drainers, id); }
    }
  }

  /** As long as no worker dies inside a row, every `draining` row is in the hands of a drainer that
      owes it a verdict, whatever late writes do; so once the drainers are idle none is left. */
  lemma {:induction false} DrainingIsHeld(q: Queue, ts: seq<Tick>)
    requires Runs(q, ts) && Known(q) && AllHeld(q)
    requires forall k | 0 <= k < |ts| :: Survives(ts[k].event)
    ensures AllHeld(After(q, ts))
    decreases |ts|
  {
    if ts != [] {
      assert Survives(ts[0].event);
      StepKeepsKnown(q, ts[0].grants, ts[0].event);
      StepKeepsHeld(q, ts[0].grants, ts[0].event);
      forall k | 0 <= k < |ts| - 1 ensures Survives(ts[1..][k].event) { assert Survives(ts[k + 1].event); }
      DrainingIsHeld(Step(q, ts[0].grants, ts[0].event), ts[1..]);
    }
  }
}
