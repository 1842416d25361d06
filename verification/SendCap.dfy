/** The daily send cap, which is checked before a dispatch and only counted after it. */
module SendCap {
  import opened Actions
  import opened Timestamps
  import opened Tables
  import opened Queue
  import opened Ownership
  import opened Dispatches

  predicate IsMidnight(day: int) { day % DAY == 0 }

  // ----- the sends of a day, by the record of every MARK_APPLIED -----

  predicate SentOn(a: Application, day: int) { IsSendFamily(a.spec.action) && Midnight(a.at) == day }

  /** A send stamped on the day whose text is not below midnight's; the rest carry a fraction of
      the day's first second, and "T00:00:00.4Z" sorts before "T00:00:00Z". */
  predicate Counted(a: Application, day: int) { SentOn(a, day) && UtcAtMost(day, a.at) }

  predicate Early(a: Application, day: int) { SentOn(a, day) && day < a.at < day + SECOND }

  function Sent(done: seq<Application>, day: int): nat {
    if done == [] then 0 else Sent(done[..|done| - 1], day) + if SentOn(done[|done| - 1], day) then 1 else 0
  }

  function SentCounted(done: seq<Application>, day: int): nat {
    if done == [] then 0 else SentCounted(done[..|done| - 1], day) + if Counted(done[|done| - 1], day) then 1 else 0
  }

  function SentEarly(done: seq<Application>, day: int): nat {
    if done == [] then 0 else SentEarly(done[..|done| - 1], day) + if Early(done[|done| - 1], day) then 1 else 0
  }

  // ----- stamps taken back -----

  /** The row became `applied` with a stamp counted on the day. */
  predicate CountedOnce(done: seq<Application>, id: nat, day: int) {
    exists i | 0 <= i < |done| :: done[i].id == id && Counted(done[i], day)
  }

  predicate Seen(stamp: Option<int>, midnight: int) { stamp.Some? && UtcAtMost(midnight, stamp.value) }

  /** A send of the day loses the stamp it was counted by: to a replay of the failed row, which leaves
      none, or to a late MARK_FAILED whose clock was read before the day, or in its first second. */
  predicate Refunded(r: Restamp, done: seq<Application>, day: int) {
    CountedOnce(done, r.id, day) && Seen(r.was, day) && !Seen(r.stamp, day)
  }

  function Refunds(rs: seq<Restamp>, done: seq<Application>, day: int): nat {
    if rs == [] then 0
    else Refunds(rs[..|rs| - 1], done, day) + if Refunded(rs[|rs| - 1], done, day) then 1 else 0
  }

  /** A send of the day that the check cannot see any more. */
  predicate IsForgotten(a: Application, rows: seq<Row>, day: int) {
    Counted(a, day) && !(a.id < |rows| && Counts(rows[a.id], day))
  }

  function Forgotten(done: seq<Application>, rows: seq<Row>, day: int): nat {
    if done == [] then 0
    else Forgotten(done[..|done| - 1], rows, day) + if IsForgotten(done[|done| - 1], rows, day) then 1 else 0
  }

  // ----- drainers between check and mark -----

  /** A drainer that has passed the check against `since` and may still mark a send on the day. */
  predicate Flying(x: Drainer, day: int) {
    && x.Working? && IsSendFamily(x.job.spec.action) && x.job.since <= day
    && (x.stage.Recording? || x.stage.Dispatching? || x.stage.Stamping? || x.stage.Marking?)
  }

  function InFlight(xs: seq<Drainer>, day: int): (n: nat)
    ensures n <= |xs|
  {
    if xs == [] then 0 else InFlight(xs[..|xs| - 1], day) + if Flying(xs[|xs| - 1], day) then 1 else 0
  }

  /** The stamp a flying drainer will write is not before the midnight it was checked against. */
  predicate Stamped(x: Drainer, now: int) {
    x.Working? && IsSendFamily(x.job.spec.action) ==>
      && (x.stage.Counting? || x.stage.Recording? || x.stage.Dispatching? || x.stage.Stamping? || x.stage.Marking? ==>
            IsMidnight(x.job.since) && x.job.since <= now)
      && !x.stage.Capturing?
      && (x.stage.Marking? ==> x.job.since <= x.job.stamp)
  }

  /** A row that has been applied keeps its type and its budget flag. */
  predicate Charged(rows: seq<Row>, a: Application) {
    && a.id < |rows| && rows[a.id].spec == a.spec
    && !rows[a.id].status.CoolingOff? && !rows[a.id].status.Cancelled?
    && (IsSendFamily(a.spec.action) ==> rows[a.id].budget)
  }

  ghost predicate Capped(q: Queue) {
    && (forall d | 0 <= d < |q.drainers| :: Stamped(q.drainers[d], q.now))
    && (forall i | 0 <= i < |q.applied| :: Charged(q.rows, q.applied[i]))
    && (forall day | IsMidnight(day) :: UnderCap(q, day))
  }

  predicate UnderCap(q: Queue, day: int) {
    && SentCounted(q.applied, day) + InFlight(q.drainers, day) <=
       DAILY_SEND_CAP - 1 + |q.drainers| + Refunds(q.restamps, q.applied, day)
    && Forgotten(q.applied, q.rows, day) <= Refunds(q.restamps, q.applied, day)
  }

  // ----- counting -----

  lemma MidnightIsWhole(day: int)
    requires IsMidnight(day)
    ensures day % SECOND == 0 && Rank(day) == day + SECOND
  {
    assert day == SECOND * (86_400 * (day / DAY));
  }

  /** Of one day's sends, the check misses exactly the early ones. */
  lemma EarlyIffUncounted(a: Application, day: int)
    requires IsMidnight(day) && SentOn(a, day)
    ensures Counted(a, day) <==> !Early(a, day)
  {
    MidnightIsWhole(day);
    assert day <= a.at;
    if a.at % SECOND == 0 && a.at < day + SECOND { assert SECOND * (a.at / SECOND) < SECOND * (day / SECOND + 1); }
  }

  lemma {:induction false} SentSplits(done: seq<Application>, day: int)
    requires IsMidnight(day)
    ensures Sent(done, day) == SentCounted(done, day) + SentEarly(done, day)
  {
    if done != [] {
      SentSplits(done[..|done| - 1], day);
      if SentOn(done[|done| - 1], day) { EarlyIffUncounted(done[|done| - 1], day); }
    }
  }

  lemma {:induction false} BudgetUpdate(rows: seq<Row>, i: nat, r: Row, day: int)
    requires i < |rows|
    ensures BudgetConsumed(rows[i := r], day) + (if Counts(rows[i], day) then 1 else 0) ==
            BudgetConsumed(rows, day) + (if Counts(r, day) then 1 else 0)
  {
    var n := |rows| - 1;
    if i < n {
      assert rows[i := r][..n] == rows[..n][i := r];
      BudgetUpdate(rows[..n], i, r, day);
    } else {
      assert rows[i := r][..n] == rows[..n];
    }
  }

  /** Only a row that loses its count is newly forgotten, and each row has one entry. */
  lemma {:induction false} ForgottenStep(done: seq<Application>, rows: seq<Row>, rows': seq<Row>, id: int, day: int)
    requires AppliedOnce(done) && |rows| <= |rows'|
    requires forall i: nat | i < |rows| && i != id && WasApplied(done, i) ::
               Counts(rows[i], day) ==> Counts(rows'[i], day)
    ensures Forgotten(done, rows', day) <= Forgotten(done, rows, day) +
            if 0 <= id < |rows| && CountedOnce(done, id, day) && Counts(rows[id], day) && !Counts(rows'[id], day)
            then 1 else 0
    ensures id < 0 || !WasApplied(done, id) ==> Forgotten(done, rows', day) <= Forgotten(done, rows, day)
  {
    if done != [] {
      var n := |done| - 1;
      var a := done[n];
      forall i: nat | i < |rows| && i != id && WasApplied(done[..n], i)
        ensures Counts(rows[i], day) ==> Counts(rows'[i], day)
      {
        assert WasApplied(done, i);
      }
      assert WasApplied(done, a.id);
      ForgottenStep(done[..n], rows, rows', id, day);
      if a.id == id { assert !WasApplied(done[..n], id) && !CountedOnce(done[..n], id, day); }
      assert Counted(a, day) ==> CountedOnce(done, a.id, day);
    }
  }

  /** What the check sees, it counts, from an earlier midnight too: every send of the day that is not
      forgotten is a row of its own. */
  lemma {:induction false} CheckCountsSends(done: seq<Application>, rows: seq<Row>, day: int, midnight: int)
    requires AppliedOnce(done) && IsMidnight(day) && IsMidnight(midnight) && midnight <= day
    ensures SentCounted(done, day) <= Forgotten(done, rows, day) + BudgetConsumed(rows, midnight)
  {
    if done != [] {
      var n := |done| - 1;
      var a := done[n];
      if Counted(a, day) && !IsForgotten(a, rows, day) {
        var blank := rows[a.id].(terminalAt := None);
        MidnightIsWhole(day);
        MidnightIsWhole(midnight);
        BudgetUpdate(rows, a.id, blank, midnight);
        assert !WasApplied(done[..n], a.id);
        ForgottenStep(done[..n], rows, rows[a.id := blank], -1, day) by {
          assert forall i: nat | i < |rows| && WasApplied(done[..n], i) :: rows[a.id := blank][i] == rows[i];
        }
        CheckCountsSends(done[..n], rows[a.id := blank], day, midnight);
      } else {
        CheckCountsSends(done[..n], rows, day, midnight);
      }
    }
  }

  lemma {:induction false} MoreRefunds(rs: seq<Restamp>, done: seq<Application>, a: Application, day: int)
    ensures Refunds(rs, done, day) <= Refunds(rs, done + [a], day)
  {
    if rs != [] {
      MoreRefunds(rs[..|rs| - 1], done, a, day);
      var r := rs[|rs| - 1];
      if CountedOnce(done, r.id, day) {
        var i :| 0 <= i < |done| && done[i].id == r.id && Counted(done[i], day);
        assert (done + [a])[i] == done[i];
      }
    }
  }

  lemma {:induction false} FlightUpdate(xs: seq<Drainer>, d: nat, x: Drainer, day: int)
    requires d < |xs|
    ensures InFlight(xs[d := x], day) + (if Flying(xs[d], day) then 1 else 0) ==
            InFlight(xs, day) + (if Flying(x, day) then 1 else 0)
  {
    var n := |xs| - 1;
    if d < n {
      assert xs[d := x][..n] == xs[..n][d := x];
      FlightUpdate(xs[..n], d, x, day);
    } else {
      assert xs[d := x][..n] == xs[..n];
    }
  }

  // ----- one step -----

  lemma StaysStamped(q: Queue, grants: seq<Grant>, x: Drainer, c: Choice, y: Drainer)
    requires Stamped(x, q.now) && Follows(q, grants, x, c, y)
    ensures Stamped(y, q.now)
  {
  }

  /** A drainer takes off only by passing the check, and lands by marking. */
  lemma TakeOff(q: Queue, grants: seq<Grant>, x: Drainer, c: Choice, y: Drainer, day: int)
    requires Stamped(x, q.now) && Follows(q, grants, x, c, y)
    ensures Flying(y, day) && !Flying(x, day) ==>
              && x.Working? && IsSendFamily(x.job.spec.action) && x.stage.Counting?
              && x.job.since <= day && BudgetConsumed(q.rows, x.job.since) < DAILY_SEND_CAP
    ensures Completes(x, c, Marking) ==> !Flying(y, day)
  {
  }

  lemma MidnightMonotone(s: int, t: int)
    requires IsMidnight(s) && s <= t
    ensures s <= Midnight(t)
  {
  }


  /** The row, if any, that had been applied before and gets another stamp in the step, or none. */
  function Restamps(q: Queue, e: Event): int
    requires Enabled(q, e)
  {
    if e.Drain? && Lapses(q, q.drainers[e.d], e.choice) then q.drainers[e.d].job.id
    else if e.Continue? && Clears(q, q.calls[e.p]) then q.calls[e.p].id
    else -1
  }

  predicate SameCount(r: Row, s: Row) { s.spec == r.spec && s.budget == r.budget && s.terminalAt == r.terminalAt }

  /** Of the rows that have been applied, only that one changes what it counts for, and the change is
      on record. */
  ghost predicate IsRestamp(q: Queue, t: Queue, id: int) {
    && |q.rows| <= |t.rows|
    && (forall i: nat | i < |q.rows| && i != id && WasApplied(q.applied, i) :: SameCount(q.rows[i], t.rows[i]))
    && if id < 0 then t.restamps == q.restamps
       else
         && id < |q.rows| && t.rows[id].spec == q.rows[id].spec
         && (IsSendFamily(q.rows[id].spec.action) && q.rows[id].budget ==> t.rows[id].budget)
         && t.restamps == q.restamps + [Restamp(id, q.rows[id].terminalAt, t.rows[id].terminalAt)]
  }

  lemma DrainRestamps(q: Queue, grants: seq<Grant>, d: nat, c: Choice)
    requires CanDrain(q, d, c) && Known(q) && Once(q)
    ensures IsRestamp(q, DrainStep(q, grants, d, c), Restamps(q, Drain(d, c)))
  {
    hide DrainNext, Records, Sends, Moves, Undelete, WasApplied;
    var x := q.drainers[d];
    assert Ready(q.rows, x) && ReadyOnce(x, q.dispatches, q.applied, q.history);
  }

  lemma OthersKeepCount(q: Queue, grants: seq<Grant>, e: Event, a: Application)
    requires Enabled(q, e) && !e.Drain? && Charged(q.rows, a) && WasApplied(q.applied, a.id) && a.id != Restamps(q, e)
    ensures a.id < |Step(q, grants, e).rows| && SameCount(q.rows[a.id], Step(q, grants, e).rows[a.id])
  {
    hide WasApplied, IsDue, CallNext, InverseOf;
  }

  lemma OthersRecord(q: Queue, grants: seq<Grant>, e: Event)
    requires Enabled(q, e) && !e.Drain?
    ensures var t, id := Step(q, grants, e), Restamps(q, e);
            && t.applied == q.applied
            && if id < 0 then t.restamps == q.restamps
               else
                 && id < |q.rows| <= |t.rows|
                 && t.rows[id].spec == q.rows[id].spec && t.rows[id].budget == q.rows[id].budget
                 && t.restamps == q.restamps + [Restamp(id, q.rows[id].terminalAt, t.rows[id].terminalAt)]
  {
    hide WasApplied, IsDue, CallNext, InverseOf;
  }

  /** What everybody else does to a row that has been applied. */
  lemma OthersRestamp(q: Queue, grants: seq<Grant>, e: Event)
    requires Enabled(q, e) && !e.Drain? && forall i | 0 <= i < |q.applied| :: Charged(q.rows, q.applied[i])
    ensures IsRestamp(q, Step(q, grants, e), Restamps(q, e)) && Step(q, grants, e).applied == q.applied
  {
    var t := Step(q, grants, e);
    OthersSpare(q, grants, e);
    OthersRecord(q, grants, e);
    hide Step, Charged, SameCount, Restamps;
    forall i: nat | i < |q.rows| && i != Restamps(q, e) && WasApplied(q.applied, i)
      ensures SameCount(q.rows[i], t.rows[i])
    {
      var k :| 0 <= k < |q.applied| && q.applied[k].id == i;
      OthersKeepCount(q, grants, e, q.applied[k]);
    }
  }

  lemma CountIsSeen(rows: seq<Row>, a: Application, day: int)
    requires Charged(rows, a) && IsSendFamily(a.spec.action)
    ensures Counts(rows[a.id], day) <==> Seen(rows[a.id].terminalAt, day)
  {
  }

  /** A send is forgotten only at the cost of a refund. */
  lemma ForgettingIsRefunded(q: Queue, t: Queue, id: int, day: int)
    requires IsRestamp(q, t, id) && AppliedOnce(q.applied)
    requires forall i | 0 <= i < |q.applied| :: Charged(q.rows, q.applied[i])
    ensures Refunds(q.restamps, q.applied, day) <= Refunds(t.restamps, q.applied, day)
    ensures Forgotten(q.applied, t.rows, day) - Forgotten(q.applied, q.rows, day) <=
            Refunds(t.restamps, q.applied, day) - Refunds(q.restamps, q.applied, day)
  {
    ForgottenStep(q.applied, q.rows, t.rows, id, day);
    if id >= 0 {
      assert t.restamps[..|q.restamps|] == q.restamps;
      if CountedOnce(q.applied, id, day) {
        var i :| 0 <= i < |q.applied| && q.applied[i].id == id && Counted(q.applied[i], day);
        CountIsSeen(q.rows, q.applied[i], day);
      }
    }
  }

  /** The cap's books after a step that applies nothing. */
  lemma BooksKept(q: Queue, t: Queue, id: int, day: int)
    requires IsRestamp(q, t, id) && AppliedOnce(q.applied) && t.applied == q.applied && UnderCap(q, day)
    requires forall i | 0 <= i < |q.applied| :: Charged(q.rows, q.applied[i])
    requires |t.drainers| == |q.drainers| && InFlight(t.drainers, day) <= InFlight(q.drainers, day)
    ensures UnderCap(t, day)
  {
    ForgettingIsRefunded(q, t, id, day);
  }

  lemma MarkUnderCap(q: Queue, grants: seq<Grant>, d: nat, c: Choice, day: int)
    requires CanDrain(q, d, c) && Known(q) && Once(q) && Capped(q) && IsMidnight(day)
    requires Completes(q.drainers[d], c, Marking)
    ensures UnderCap(DrainStep(q, grants, d, c), day)
  {
    var x, t := q.drainers[d], DrainStep(q, grants, d, c);
    assert Ready(q.rows, x) && Stamped(x, q.now) && UnderCap(q, day);
    DrainFollows(q, grants, x, c);
    TakeOff(q, grants, x, c, t.drainers[d], day);
    FlightUpdate(q.drainers, d, t.drainers[d], day);
    DrainRestamps(q, grants, d, c);
    ForgettingIsRefunded(q, t, -1, day);
    var a := Application(x.job.id, x.job.spec, x.job.stamp);
    assert t.applied == q.applied + [a] && t.applied[..|q.applied|] == q.applied;
    MoreRefunds(q.restamps, q.applied, a, day);
    if IsSendFamily(x.job.spec.action) { MidnightMonotone(x.job.since, x.job.stamp); }
    assert t.rows[a.id] == RowAfter(q.rows[a.id], Marking, x.job);
    assert !IsForgotten(a, t.rows, day);
  }

  lemma DrainUnderCap(q: Queue, grants: seq<Grant>, d: nat, c: Choice, day: int)
    requires CanDrain(q, d, c) && Known(q) && Once(q) && Capped(q) && IsMidnight(day)
    requires !Completes(q.drainers[d], c, Marking)
    ensures UnderCap(DrainStep(q, grants, d, c), day)
  {
    var x, t := q.drainers[d], DrainStep(q, grants, d, c);
    assert Ready(q.rows, x) && Stamped(x, q.now) && UnderCap(q, day);
    DrainFollows(q, grants, x, c);
    TakeOff(q, grants, x, c, t.drainers[d], day);
    FlightUpdate(q.drainers, d, t.drainers[d], day);
    DrainRestamps(q, grants, d, c);
    ForgettingIsRefunded(q, t, Restamps(q, Drain(d, c)), day);
    if Flying(t.drainers[d], day) && !Flying(x, day) {
      CheckCountsSends(q.applied, q.rows, day, x.job.since);
    }
  }

  lemma ChargedKept(rows: seq<Row>, x: Drainer, c: Choice, a: Application)
    requires Charged(rows, a) && Ready(rows, x)
    ensures Charged(RowsAfter(rows, x, c), a)
  {
  }

  lemma MarkCharges(rows: seq<Row>, x: Drainer, c: Choice)
    requires Ready(rows, x) && Completes(x, c, Marking)
    ensures Charged(RowsAfter(rows, x, c), Application(x.job.id, x.job.spec, x.job.stamp))
  {
  }

  lemma DrainKeepsCapped(q: Queue, grants: seq<Grant>, d: nat, c: Choice)
    requires CanDrain(q, d, c) && Known(q) && Once(q) && Capped(q)
    ensures Capped(DrainStep(q, grants, d, c))
  {
    var x, t := q.drainers[d], DrainStep(q, grants, d, c);
    assert Ready(q.rows, x) && Stamped(x, q.now);
    DrainFollows(q, grants, x, c);
    StaysStamped(q, grants, x, c, t.drainers[d]);
    if Completes(x, c, Marking) { MarkCharges(q.rows, x, c); }
    hide DrainNext, Follows, CanTake, Ready, UnderCap, RowsAfter, Charged, Records, Sends, Moves, Lapses;
    forall day | IsMidnight(day) ensures UnderCap(t, day) {
      if Completes(x, c, Marking) { MarkUnderCap(q, grants, d, c, day); } else { DrainUnderCap(q, grants, d, c, day); }
    }
    forall e | 0 <= e < |t.drainers| ensures Stamped(t.drainers[e], t.now) {
      if e != d { assert Stamped(q.drainers[e], q.now); }
    }
    forall i | 0 <= i < |t.applied| ensures Charged(t.rows, t.applied[i]) {
      if i < |q.applied| {
        assert t.applied[i] == q.applied[i];
        ChargedKept(q.rows, x, c, q.applied[i]);
      }
    }
  }

  lemma OthersKeepCharged(q: Queue, grants: seq<Grant>, e: Event, a: Application)
    requires Enabled(q, e) && !e.Drain? && Charged(q.rows, a)
    ensures Charged(Step(q, grants, e).rows, a)
  {
    OthersSpare(q, grants, e);
    OthersNeverApply(q, grants, e);
  }

  lemma StepKeepsCapped(q: Queue, grants: seq<Grant>, e: Event)
    requires Enabled(q, e) && Known(q) && Once(q) && Capped(q)
    ensures Capped(Step(q, grants, e)) && |Step(q, grants, e).drainers| == |q.drainers|
  {
    if e.Drain? {
      DrainKeepsCapped(q, grants, e.d, e.choice);
    } else {
      var t := Step(q, grants, e);
      OthersSpare(q, grants, e);
      OthersRestamp(q, grants, e);
      assert t.now >= q.now;
      hide Step, UnderCap, Charged, IsRestamp, Spares;
      forall day | IsMidnight(day) ensures UnderCap(t, day) { BooksKept(q, t, Restamps(q, e), day); }
      forall i | 0 <= i < |t.applied| ensures Charged(t.rows, t.applied[i]) {
        OthersKeepCharged(q, grants, e, q.applied[i]);
      }
      forall d | 0 <= d < |t.drainers| ensures Stamped(t.drainers[d], t.now) {
        assert Stamped(q.drainers[d], q.now);
      }
    }
  }

  // ----- whole runs -----

  lemma {:induction false} RunKeepsCapped(q: Queue, ts: seq<Tick>)
    requires Runs(q, ts) && Known(q) && Once(q) && Capped(q)
    ensures Capped(After(q, ts)) && Once(After(q, ts)) && |After(q, ts).drainers| == |q.drainers|
    decreases |ts|
  {
    if ts != [] {
      StepKeepsKnown(q, ts[0].grants, ts[0].event);
      StepKeepsOnce(q, ts[0].grants, ts[0].event);
      StepKeepsCapped(q, ts[0].grants, ts[0].event);
      RunKeepsCapped(Step(q, ts[0].grants, ts[0].event), ts[1..]);
    }
  }

  /** On every UTC day of every run with k drainers: at most 20 + (k - 1) sends ever become `applied`,
      plus those stamped inside the day's first second, plus one for each time a send of the day lost
      the stamp it was counted by. */
  lemma DailySends(q: Queue, ts: seq<Tick>, day: int)
    requires Runs(q, ts) && Known(q) && Once(q) && Capped(q) && IsMidnight(day)
    ensures var t := After(q, ts);
            Sent(t.applied, day) <=
            20 + (|q.drainers| - 1) + SentEarly(t.applied, day) + Refunds(t.restamps, t.applied, day)
    ensures AppliedOnce(After(q, ts).applied)
  {
    RunKeepsCapped(q, ts);
    assert UnderCap(After(q, ts), day);
    SentSplits(After(q, ts).applied, day);
  }

  /** So nothing takes a day past 20 + (k - 1) but sends of its first second and stamps taken back. */
  lemma ExceededOnlyBy(q: Queue, ts: seq<Tick>, day: int)
    requires Runs(q, ts) && Known(q) && Once(q) && Capped(q) && IsMidnight(day)
    requires Sent(After(q, ts).applied, day) > 20 + (|q.drainers| - 1)
    ensures var t := After(q, ts);
            || (exists i | 0 <= i < |t.applied| :: Early(t.applied[i], day))
            || (exists i | 0 <= i < |t.restamps| :: Refunded(t.restamps[i], t.applied, day))
  {
    DailySends(q, ts, day);
    var t := After(q, ts);
    if SentEarly(t.applied, day) > 0 { SomeEarly(t.applied, day); } else { SomeRefund(t.restamps, t.applied, day); }
  }

  lemma {:induction false} SomeEarly(done: seq<Application>, day: int)
    requires SentEarly(done, day) > 0
    ensures exists i | 0 <= i < |done| :: Early(done[i], day)
  {
    if !Early(done[|done| - 1], day) {
      SomeEarly(done[..|done| - 1], day);
      var i :| 0 <= i < |done| - 1 && Early(done[..|done| - 1][i], day);
      assert Early(done[i], day);
    }
  }

  lemma {:induction false} SomeRefund(rs: seq<Restamp>, done: seq<Application>, day: int)
    requires Refunds(rs, done, day) > 0
    ensures exists i | 0 <= i < |rs| :: Refunded(rs[i], done, day)
  {
    if !Refunded(rs[|rs| - 1], done, day) {
      SomeRefund(rs[..|rs| - 1], done, day);
      var i :| 0 <= i < |rs| - 1 && Refunded(rs[..|rs| - 1][i], done, day);
      assert Refunded(rs[i], done, day);
    }
  }

  // ----- when no stamp is taken back -----

  predicate IsAppliedSend(done: seq<Application>, id: nat) {
    exists i | 0 <= i < |done| :: done[i].id == id && IsSendFamily(done[i].spec.action)
  }

  /** A drainer's verdict hits a send that has been applied. */
  predicate Overwrites(q: Queue, e: Event)
    requires Enabled(q, e)
  {
    && e.Drain?
    && var x := q.drainers[e.d];
       && (Completes(x, e.choice, Failing) || Completes(x, e.choice, Recovering) || Completes(x, e.choice, Waiting))
       && IsSendFamily(x.job.spec.action) && IsApplied(q.rows, x.job.id)
  }

  ghost predicate Overwritten(q: Queue, ts: seq<Tick>)
    requires Runs(q, ts)
    decreases |ts|
  {
    ts != [] && (Overwrites(q, ts[0].event) || Overwritten(Step(q, ts[0].grants, ts[0].event), ts[1..]))
  }

  /** Every send that became `applied` still is, and none was stamped again. */
  ghost predicate Lasting(q: Queue) {
    && (forall i | 0 <= i < |q.applied| && IsSendFamily(q.applied[i].spec.action) :: IsApplied(q.rows, q.applied[i].id))
    && ApartFromSends(q.restamps, q.applied)
  }

  lemma DrainSparesSend(q: Queue, x: Drainer, c: Choice, a: Application, d: nat)
    requires CanDrain(q, d, c) && x == q.drainers[d] && Ready(q.rows, x) && !Overwrites(q, Drain(d, c))
    requires Charged(q.rows, a) && IsSendFamily(a.spec.action) && IsApplied(q.rows, a.id)
    ensures IsApplied(RowsAfter(q.rows, x, c), a.id)
    ensures Lapses(q, x, c) ==> x.job.id != a.id
  {
  }

  /** No stamp of a send is rewritten. */
  lemma NoSendRestamped(q: Queue, e: Event)
    requires Enabled(q, e) && Known(q) && Lasting(q) && !Overwrites(q, e)
    requires forall i | 0 <= i < |q.applied| :: Charged(q.rows, q.applied[i])
    ensures Restamps(q, e) >= 0 ==> !IsAppliedSend(q.applied, Restamps(q, e)) && WasApplied(q.applied, Restamps(q, e))
  {
    var id := Restamps(q, e);
    if id >= 0 && IsAppliedSend(q.applied, id) {
      var i :| 0 <= i < |q.applied| && q.applied[i].id == id && IsSendFamily(q.applied[i].spec.action);
      assert Charged(q.rows, q.applied[i]) && IsApplied(q.rows, id);
      if e.Drain? {
        assert Ready(q.rows, q.drainers[e.d]);
        DrainSparesSend(q, q.drainers[e.d], e.choice, q.applied[i], e.d);
      }
    }
  }

  predicate ApartFromSends(rs: seq<Restamp>, done: seq<Application>) {
    forall i | 0 <= i < |rs| :: WasApplied(done, rs[i].id) && !IsAppliedSend(done, rs[i].id)
  }

  lemma RestampsStay(rs: seq<Restamp>, done: seq<Application>, a: Application)
    requires ApartFromSends(rs, done) && !WasApplied(done, a.id)
    ensures ApartFromSends(rs, done + [a])
  {
    forall i | 0 <= i < |rs| ensures WasApplied(done + [a], rs[i].id) && !IsAppliedSend(done + [a], rs[i].id) {
      var k :| 0 <= k < |done| && done[k].id == rs[i].id;
      assert (done + [a])[k] == done[k];
    }
  }

  lemma StepKeepsRestamps(q: Queue, grants: seq<Grant>, e: Event)
    requires Enabled(q, e) && Known(q) && Once(q) && Capped(q) && Lasting(q) && !Overwrites(q, e)
    ensures ApartFromSends(Step(q, grants, e).restamps, Step(q, grants, e).applied)
  {
    var t := Step(q, grants, e);
    NoSendRestamped(q, e);
    assert ApartFromSends(q.restamps, q.applied);
    if e.Drain? {
      var x := q.drainers[e.d];
      DrainRestamps(q, grants, e.d, e.choice);
      assert ReadyOnce(x, q.dispatches, q.applied, q.history);
      hide DrainStep, ApartFromSends, WasApplied;
      if Completes(x, e.choice, Marking) {
        RestampsStay(q.restamps, q.applied, Application(x.job.id, x.job.spec, x.job.stamp));
      }
    } else {
      OthersRestamp(q, grants, e);
    }
  }

  lemma StepKeepsLasting(q: Queue, grants: seq<Grant>, e: Event)
    requires Enabled(q, e) && Known(q) && Once(q) && Capped(q) && Lasting(q) && !Overwrites(q, e)
    ensures Lasting(Step(q, grants, e))
  {
    var t := Step(q, grants, e);
    StepKeepsRestamps(q, grants, e);
    forall i | 0 <= i < |t.applied| && IsSendFamily(t.applied[i].spec.action)
      ensures IsApplied(t.rows, t.applied[i].id)
    {
      SendStays(q, grants, e, i);
    }
  }

  lemma SendStays(q: Queue, grants: seq<Grant>, e: Event, i: nat)
    requires Enabled(q, e) && Known(q) && Capped(q) && Lasting(q) && !Overwrites(q, e)
    requires i < |Step(q, grants, e).applied| && IsSendFamily(Step(q, grants, e).applied[i].spec.action)
    ensures IsApplied(Step(q, grants, e).rows, Step(q, grants, e).applied[i].id)
  {
    if e.Drain? {
      var x := q.drainers[e.d];
      assert Ready(q.rows, x);
      if i < |q.applied| {
        assert Charged(q.rows, q.applied[i]);
        DrainSparesSend(q, x, e.choice, q.applied[i], e.d);
      }
    } else {
      OthersSpare(q, grants, e);
    }
  }

  lemma {:induction false} NobodyIsRefunded(rs: seq<Restamp>, done: seq<Application>, day: int)
    requires ApartFromSends(rs, done)
    ensures Refunds(rs, done, day) == 0
  {
    if rs != [] { NobodyIsRefunded(rs[..|rs| - 1], done, day); }
  }

  lemma {:induction false} RunKeepsLasting(q: Queue, ts: seq<Tick>)
    requires Runs(q, ts) && Known(q) && Once(q) && Capped(q) && Lasting(q) && !Overwritten(q, ts)
    ensures Lasting(After(q, ts))
    decreases |ts|
  {
    if ts != [] {
      StepKeepsKnown(q, ts[0].grants, ts[0].event);
      StepKeepsOnce(q, ts[0].grants, ts[0].event);
      StepKeepsCapped(q, ts[0].grants, ts[0].event);
      StepKeepsLasting(q, ts[0].grants, ts[0].event);
      RunKeepsLasting(Step(q, ts[0].grants, ts[0].event), ts[1..]);
    }
  }

  /** If no verdict is ever written over an applied send, no stamp is taken back, and the cap holds but
      for the day's first second. */
  lemma CapHoldsUnlessOverwritten(q: Queue, ts: seq<Tick>, day: int)
    requires Runs(q, ts) && Known(q) && Once(q) && Capped(q) && Lasting(q) && IsMidnight(day) && !Overwritten(q, ts)
    ensures var t := After(q, ts);
            && Refunds(t.restamps, t.applied, day) == 0
            && Sent(t.applied, day) <= 20 + (|q.drainers| - 1) + SentEarly(t.applied, day)
  {
    DailySends(q, ts, day);
    RunKeepsLasting(q, ts);
    NobodyIsRefunded(After(q, ts).restamps, After(q, ts).applied, day);
  }

  // ----- nobody overwrites: one drainer, or notifications that do not raise -----

  /** A drainer that is done with a send but not with its notification: the send is not applied. */
  predicate Meek(rows: seq<Row>, x: Drainer) {
    x.Working? && x.job.late && IsSendFamily(x.job.spec.action) ==> !IsApplied(rows, x.job.id)
  }

  /** Nor is it at the last resort after a notification that raised. */
  predicate Mild(x: Drainer) { x.Working? && x.job.late && !x.stage.Notifying? ==> IsRevertRow(x.job.spec) }

  lemma HoldersSpareApplied(q: Queue, e: Event)
    requires Enabled(q, e) && Known(q) && Owned(q)
    ensures Overwrites(q, e) ==> q.drainers[e.d].job.late && q.drainers[e.d].stage.Recovering?
  {
    if e.Drain? { assert Ready(q.rows, q.drainers[e.d]) && InHand(q.rows, q.drainers[e.d]); }
  }

  lemma StaysMeek(q: Queue, grants: seq<Grant>, x: Drainer, c: Choice)
    requires CanTake(q, x, c) && Ready(q.rows, x) && Meek(q.rows, x)
    ensures Meek(RowsAfter(q.rows, x, c), DrainNext(q, grants, x, c))
  {
    DrainFollows(q, grants, x, c);
  }

  lemma StaysMild(q: Queue, grants: seq<Grant>, x: Drainer, c: Choice)
    requires CanTake(q, x, c) && Ready(q.rows, x) && Mild(x) && !(c == Throw && x.Working? && x.stage.Notifying?)
    ensures Mild(DrainNext(q, grants, x, c))
  {
    DrainFollows(q, grants, x, c);
  }

  lemma {:induction false} OneDrainerNeverOverwrites(q: Queue, ts: seq<Tick>)
    requires Runs(q, ts) && Known(q) && Owned(q) && |q.drainers| <= 1
    requires forall d | 0 <= d < |q.drainers| :: Meek(q.rows, q.drainers[d])
    ensures !Overwritten(q, ts)
    decreases |ts|
  {
    if ts != [] {
      var e, t := ts[0].event, Step(q, ts[0].grants, ts[0].event);
      HoldersSpareApplied(q, e);
      StepKeepsKnown(q, ts[0].grants, e);
      StepKeepsOwned(q, ts[0].grants, e);
      StepKeepsMeek(q, ts[0].grants, e);
      OneDrainerNeverOverwrites(t, ts[1..]);
    }
  }

  lemma StepKeepsMeek(q: Queue, grants: seq<Grant>, e: Event)
    requires Enabled(q, e) && Known(q) && |q.drainers| <= 1
    requires forall d | 0 <= d < |q.drainers| :: Meek(q.rows, q.drainers[d])
    ensures var t := Step(q, grants, e);
            |t.drainers| == |q.drainers| && forall d | 0 <= d < |t.drainers| :: Meek(t.rows, t.drainers[d])
  {
    if e.Drain? {
      assert Ready(q.rows, q.drainers[e.d]);
      StaysMeek(q, grants, q.drainers[e.d], e.choice);
    } else {
      OthersSpare(q, grants, e);
      OthersNeverApply(q, grants, e);
    }
  }

  lemma {:induction false} QuietNotificationsNeverOverwrite(q: Queue, ts: seq<Tick>)
    requires Runs(q, ts) && Known(q) && Undisputed(q) && AllNotifyWell(q, ts)
    requires forall d | 0 <= d < |q.drainers| :: Mild(q.drainers[d])
    ensures !Overwritten(q, ts)
    decreases |ts|
  {
    if ts != [] {
      var e, t := ts[0].event, Step(q, ts[0].grants, ts[0].event);
      HoldersSpareApplied(q, e);
      if e.Drain? { assert Mild(q.drainers[e.d]); }
      StepKeepsKnown(q, ts[0].grants, e);
      StepKeepsUndisputed(q, ts[0].grants, e);
      StepKeepsMild(q, ts[0].grants, e);
      QuietNotificationsNeverOverwrite(t, ts[1..]);
    }
  }

  lemma StepKeepsMild(q: Queue, grants: seq<Grant>, e: Event)
    requires Enabled(q, e) && Known(q) && NotifiesWell(q, e)
    requires forall d | 0 <= d < |q.drainers| :: Mild(q.drainers[d])
    ensures var t := Step(q, grants, e); forall d | 0 <= d < |t.drainers| :: Mild(t.drainers[d])
  {
    if e.Drain? {
      assert Ready(q.rows, q.drainers[e.d]) && Mild(q.drainers[e.d]);
      StaysMild(q, grants, q.drainers[e.d], e.choice);
    } else {
      OthersSpare(q, grants, e);
    }
  }

  /** A failed send uses up one of the day's sends only until it is replayed: the reset clears the
      stamp it is counted by. */
  lemma ReplayRefundsTheBudget(rows: seq<Row>, i: nat, day: int)
    requires i < |rows| && rows[i].status.Failed? && Counts(rows[i], day)
    ensures BudgetConsumed(rows[i := Reset(rows[i])], day) + 1 == BudgetConsumed(rows, day)
  {
    BudgetUpdate(rows, i, Reset(rows[i]), day);
  }
}
