/** How far past the daily cap a run can go: the bound of `SendCap.DailySends` is met by some run,
    for every number of drainers, of sends in the day's first second and of stamps taken back. */
module CapRuns {
  import opened Actions
  import opened Timestamps
  import opened Tables
  import opened Queue
  import opened SendCap
  import opened SendCalls
  import opened Reach
  import opened Flights
  import opened Lines
  import opened Replays
  import S = System
  import A = Approvals
  import C = CoolingOff

  const HALF := SECOND / 2

  // ----- the day's books -----

  /** Sends of the first second, all sends, which are the calls too, what the check counts, and stamps
      taken back. */
  datatype Books = Books(early: nat, sent: nat, counted: nat, refunds: nat)

  /** The books of a day, with no record of a row from `i` on. */
  ghost predicate IsKept(q: Queue, b: Books, i: nat, day: int) {
    && b == Books(SentEarly(q.applied, day), Sent(q.applied, day), BudgetConsumed(q.rows, day),
                  Refunds(q.restamps, q.applied, day))
    && Calls(q.dispatches, day) == b.sent
    && (forall k | 0 <= k < |q.applied| :: q.applied[k].id < i)
    && (forall k | 0 <= k < |q.restamps| :: q.restamps[k].id < i)
  }

  /** A moment `off` into the day. */
  lemma ClockOfDay(day: int, off: nat)
    requires IsMidnight(day) && off < DAY
    ensures Midnight(day + off) == day && (day + off) % SECOND == off % SECOND
  {
    assert day == DAY * (day / DAY);
    assert (day + off) % DAY == off;
    assert DAY == SECOND * 86_400;
    assert day + off == SECOND * (86_400 * (day / DAY)) + off;
  }

  /** The two moments of the runs below: in the first second and after it. */
  predicate IsHour(now: int, day: int) { now == day + HALF || now == day + 5 * SECOND }

  lemma StampedAt(now: int, s: Spec, id: nat, day: int)
    requires IsMidnight(day) && IsHour(now, day) && IsSendFamily(s.action)
    ensures SentOn(Application(id, s, now), day)
    ensures Early(Application(id, s, now), day) <==> now == day + HALF
    ensures UtcAtMost(day, now) <==> now != day + HALF
  {
    ClockOfDay(day, HALF);
    ClockOfDay(day, 5 * SECOND);
    ClockOfDay(day, 0);
    hide IsMidnight, Midnight;
  }

  /** Only rows on record matter to the refunds. */
  lemma {:induction false} RefundsApart(rs: seq<Restamp>, done: seq<Application>, a: Application, day: int)
    requires forall k | 0 <= k < |rs| :: rs[k].id != a.id
    ensures Refunds(rs, done + [a], day) == Refunds(rs, done, day)
  {
    if rs != [] {
      RefundsApart(rs[..|rs| - 1], done, a, day);
      var r := rs[|rs| - 1];
      assert CountedOnce(done + [a], r.id, day) <==> CountedOnce(done, r.id, day) by {
        if CountedOnce(done, r.id, day) {
          var k :| 0 <= k < |done| && done[k].id == r.id && Counted(done[k], day);
          assert (done + [a])[k] == done[k];
        }
      }
    }
  }

  /** Row `i`, which had no stamp, is marked applied. */
  function Marked(b: Books, now: int, day: int): Books {
    if now == day + HALF then b.(early := b.early + 1, sent := b.sent + 1)
    else b.(sent := b.sent + 1, counted := b.counted + 1)
  }

  lemma MarkKeepsBooks(q: Queue, t: Queue, b: Books, i: nat, day: int, grant: Option<nat>)
    requires IsKept(q, b, i, day) && IsMidnight(day) && IsHour(q.now, day)
    requires i < |q.rows| && q.rows[i].terminalAt.None? && IsSendFamily(q.rows[i].spec.action)
    requires t.rows == q.rows[i := MarkApplied(q.rows[i], q.now, true, grant)] && t.restamps == q.restamps
    requires t.applied == q.applied + [Application(i, q.rows[i].spec, q.now)]
    requires |t.dispatches| == |q.dispatches| + 1 && t.dispatches[..|q.dispatches|] == q.dispatches
    requires t.dispatches[|q.dispatches|].at == q.now && t.dispatches[|q.dispatches|].spec == q.rows[i].spec
    ensures IsKept(t, Marked(b, q.now, day), i + 1, day)
  {
    var a := Application(i, q.rows[i].spec, q.now);
    StampedAt(q.now, q.rows[i].spec, i, day);
    BudgetUpdate(q.rows, i, MarkApplied(q.rows[i], q.now, true, grant), day);
    RefundsApart(q.restamps, q.applied, a, day);
    assert t.applied[..|q.applied|] == q.applied;
    hide IsMidnight, Early, SentOn, UtcAtMost;
  }

  /** A row is written without a record. */
  lemma WriteKeepsBooks(q: Queue, t: Queue, b: Books, i: nat, day: int, k: nat, r: Row)
    requires IsKept(q, b, i, day) && k < |q.rows| && t.rows == q.rows[k := r]
    requires t.restamps == q.restamps && t.applied == q.applied && t.dispatches == q.dispatches
    ensures IsKept(t, b.(counted := BudgetConsumed(t.rows, day)), i, day)
    ensures BudgetConsumed(t.rows, day) + (if Counts(q.rows[k], day) then 1 else 0) ==
            b.counted + (if Counts(r, day) then 1 else 0)
  {
    BudgetUpdate(q.rows, k, r, day);
  }

  // ----- one flight -----

  function Grants(day: int): seq<Grant> { [Grant(SendReply, ["m"], Utc(day + HALF + HOUR), day + HALF, None)] }

  /** The grant is live, the inbox as it was, nothing paused. */
  predicate IsOpen(q: Queue, grants: seq<Grant>, day: int) {
    !q.paused && q.emails == Inbox() && IsHour(q.now, day) && q.calls == map[] && grants == Grants(day)
  }

  lemma GrantIsFound(now: int, day: int)
    requires IsMidnight(day) && IsHour(now, day)
    ensures FindGrant(Grants(day), SendReply, Some("m"), now).Some?
  {
    ClockOfDay(day, HALF);
    ClockOfDay(day, 5 * SECOND);
    ClockOfDay(day, HALF + HOUR);
    hide IsMidnight;
    assert IsLive(Grants(day)[0], SendReply, now) && Covers(Grants(day)[0], Some("m"));
  }

  lemma ReplyIsFit(q: Queue, grants: seq<Grant>, at: int, day: int)
    requires IsMidnight(day) && IsOpen(q, grants, day) && BudgetConsumed(q.rows, day) < DAILY_SEND_CAP
    ensures IsFit(q, grants, Reply(at))
  {
    GrantIsFound(q.now, day);
    ClockOfDay(day, HALF);
    ClockOfDay(day, 5 * SECOND);
    hide IsMidnight, Midnight, BudgetConsumed, FindGrant;
    assert VetFailure(q.emails, Reply(at)).None?;
  }

  /** What stays as it is while mail is sent. */
  predicate SameWorld(q: Queue, t: Queue) {
    && t.now == q.now && t.paused == q.paused && t.emails == q.emails && t.calls == q.calls
    && |t.rows| == |q.rows| && |t.drainers| == |q.drainers|
  }

  /** A free drainer claims the next row and gets it past every check. */
  lemma Depart(o: Queue, grants: seq<Grant>, q: Queue, d: nat, i: nat, at: int, day: int) returns (t: Queue)
    requires Reaches(o, grants, q) && IsMidnight(day) && IsOpen(q, grants, day)
    requires Line(q, i, Reply(at)) && i < |q.rows| && i !in q.history && BudgetConsumed(q.rows, day) < DAILY_SEND_CAP
    requires d < |q.drainers| && IsFree(q.drainers[d], i, Reply(at))
    ensures Reaches(o, grants, t) && SameWorld(q, t)
    ensures t.drainers == q.drainers[d := t.drainers[d]] && t.applied == q.applied && t.restamps == q.restamps
    ensures t.rows == q.rows[i := q.rows[i].(status := Draining)] && t.history.Keys == q.history.Keys + {i}
    ensures t.dispatches == q.dispatches
    ensures IsFlying(t, d, i, at) && t.drainers[d].batch == Upcoming(i + 1, |t.drainers[d].batch|, Reply(at))
  {
    hide Reaches, IsFit;
    t := ClaimNextInLine(o, grants, q, d, i, Reply(at));
    BudgetUpdate(q.rows, i, q.rows[i].(status := Draining), day);
    ReplyIsFit(t, grants, at, day);
    t := ReachAdapter(o, grants, t, d);
  }

  /** A drainer is about to send the row. */
  predicate IsFlying(q: Queue, d: nat, i: nat, at: int) {
    && d < |q.drainers| && i < |q.rows|
    && q.drainers[d].Working? && q.drainers[d].stage.Dispatching?
    && q.drainers[d].job.id == i && q.drainers[d].job.spec == Reply(at)
    && q.rows[i].status.Draining? && q.rows[i].spec == Reply(at) && q.rows[i].terminalAt.None?
  }

  /** It is accepted and marked. */
  lemma Arrive(o: Queue, grants: seq<Grant>, q: Queue, d: nat, i: nat, at: int, b: Books, day: int) returns (t: Queue)
    requires Reaches(o, grants, q) && IsFlying(q, d, i, at)
    requires IsMidnight(day) && IsHour(q.now, day) && IsKept(q, b, i, day)
    ensures Reaches(o, grants, t) && SameWorld(q, t) && t.history == q.history
    ensures IsKept(t, Marked(b, q.now, day), i + 1, day)
    ensures t.applied == q.applied + [Application(i, Reply(at), q.now)]
    ensures var x := q.drainers[d];
            && t.drainers == q.drainers[d := Looping(x.batch, x.processed)]
            && t.rows == q.rows[i := MarkApplied(q.rows[i], q.now, true, x.job.grant)]
  {
    hide Reaches, IsKept;
    assert CanAccept(q, Reply(at)) && !IsRevertRow(Reply(at));
    Land(o, grants, q, d);
    t := Landed(q, d);
    MarkKeepsBooks(q, t, b, i, day, q.drainers[d].job.grant);
  }

  // ----- one drainer, row after row -----

  /** Drainer 0 is free, the others are idle. */
  predicate IsCalm(q: Queue, i: nat, s: Spec) {
    && |q.drainers| > 0 && IsFree(q.drainers[0], i, s)
    && forall d | 0 < d < |q.drainers| :: q.drainers[d].Idle?
  }

  /** The rows from `i` on are still to be sent, and the books are so far as they say. */
  ghost predicate IsReady(q: Queue, grants: seq<Grant>, at: int, i: nat, b: Books, day: int) {
    && IsMidnight(day) && IsOpen(q, grants, day) && IsKept(q, b, i, day)
    && Line(q, i, Reply(at)) && AllNew(q, i) && IsCalm(q, i, Reply(at))
  }

  lemma SendOne(o: Queue, grants: seq<Grant>, q: Queue, at: int, i: nat, b: Books, day: int) returns (t: Queue)
    requires Reaches(o, grants, q) && IsReady(q, grants, at, i, b, day) && i < |q.rows| && b.counted < DAILY_SEND_CAP
    ensures Reaches(o, grants, t) && SameWorld(q, t)
    ensures IsReady(t, grants, at, i + 1, Marked(b, q.now, day), day)
  {
    hide Reaches;
    var u := Depart(o, grants, q, 0, i, at, day);
    WriteKeepsBooks(q, u, b, i, day, i, u.rows[i]);
    hide IsKept, IsMidnight;
    t := Arrive(o, grants, u, 0, i, at, b, day);
  }

  /** `n` sends, one after the other, at one moment. */
  lemma {:induction false} SendSome(o: Queue, grants: seq<Grant>, q: Queue, at: int, i: nat, b: Books, n: nat, day: int)
    returns (t: Queue)
    requires Reaches(o, grants, q) && IsReady(q, grants, at, i, b, day) && i + n <= |q.rows|
    requires if q.now == day + HALF then b.counted < DAILY_SEND_CAP else b.counted + n <= DAILY_SEND_CAP
    ensures Reaches(o, grants, t) && SameWorld(q, t)
    ensures IsReady(t, grants, at, i + n, if q.now == day + HALF then b.(early := b.early + n, sent := b.sent + n)
                                          else b.(sent := b.sent + n, counted := b.counted + n), day)
    decreases n
  {
    hide Reaches, IsReady;
    t := q;
    if n > 0 {
      t := SendOne(o, grants, q, at, i, b, day);
      t := SendSome(o, grants, t, at, i + 1, Marked(b, q.now, day), n - 1, day);
    }
  }

  // ----- a stamp taken back -----

  /** The email as sync sees it while it is flagged. */
  function Flagged(): map<string, Email> { map["m" := Email(Some("w"), false)] }

  lemma Sync(o: Queue, grants: seq<Grant>, q: Queue, marker: string)
    requires Reaches(o, grants, q) && (q.emails == Inbox() || q.emails == Flagged())
    ensures Reaches(o, grants, q.(emails := map["m" := Email(Some(marker), false)]))
  {
    hide Reaches;
    assert Upsert(q.emails, "m", Some(marker)) == map["m" := Email(Some(marker), false)];
    Onward(o, grants, q, SyncUpsert("m", Some(marker)));
  }

  /** The row does not pass its checks while the email is flagged. */
  lemma FailsCheck(o: Queue, q: Queue, d: nat, i: nat, at: int, day: int) returns (y: Drainer)
    requires Reaches(o, Grants(day), q) && IsMidnight(day) && q.now == day + 5 * SECOND && !q.paused
    requires q.emails == Flagged() && d < |q.drainers| && q.drainers[d].Working? && q.drainers[d].stage.Claimed?
    requires q.drainers[d].job == StartJob(Picked(i, Reply(at)))
    ensures Reaches(o, Grants(day), At(q, d, y)) && y.Working? && y.stage.Failing? && y.job.stamp == q.now
    ensures y.job.id == i && y.job.spec == Reply(at) && y.batch == q.drainers[d].batch
  {
    GrantIsFound(q.now, day);
    hide Reaches, FindGrant, IsMidnight;
    assert At(q, d, q.drainers[d]) == q;
    assert VetFailure(q.emails, Reply(at)).Some?;
    y := Hop(o, Grants(day), q, d, q.drainers[d], Go);
    y := Hop(o, Grants(day), q, d, y, Go);
    y := Hop(o, Grants(day), q, d, y, Go);
    y := Hop(o, Grants(day), q, d, y, Go);
  }

  /** A drainer has failed the row and is sending the notification. */
  predicate IsTelling(x: Drainer, i: nat, at: int) {
    x.Working? && x.stage.Notifying? && x.job.late && x.job.id == i && x.job.spec == Reply(at)
    && x.batch == Upcoming(i + 1, |x.batch|, Reply(at))
  }

  /** Drainer 0 fails row `i`, which is then replayed. */
  lemma FailsAndIsReplayed(o: Queue, grants: seq<Grant>, q: Queue, at: int, i: nat, b: Books, day: int)
    returns (t: Queue)
    requires Reaches(o, grants, q) && IsReady(q, grants, at, i, b, day) && q.now == day + 5 * SECOND
    requires i < |q.rows| && b.counted + 1 < DAILY_SEND_CAP
    ensures Reaches(o, grants, t) && SameWorld(q, t) && t.history == q.history
    ensures t.drainers == q.drainers[0 := t.drainers[0]] && IsTelling(t.drainers[0], i, at)
    ensures IsKept(t, b, i, day) && Line(t, i, Reply(at))
  {
    hide Reaches, IsKept;
    t := ClaimNextInLine(o, grants, q, 0, i, Reply(at));
    WriteKeepsBooks(q, t, b, i, day, i, t.rows[i]);
    var claimed := t;
    Sync(o, grants, t, "w");
    t := t.(emails := Flagged());
    var y := FailsCheck(o, t, 0, i, at, day);
    t := At(t, 0, y);
    SameBooks(claimed, t, b, i, day);
    FailRow(o, grants, t, 0);
    var u := AfterFailure(t, 0);
    NotOnRecord(t, b, i, day);
    assert IsTelling(u.drainers[0], i, at);
    Sync(o, grants, u, "v");
    u := u.(emails := Inbox());
    t := ResetAfterFailure(o, grants, t, u, at, i, b, day);
  }

  lemma SameBooks(q: Queue, t: Queue, b: Books, i: nat, day: int)
    requires IsKept(q, b, i, day) && t.rows == q.rows && t.applied == q.applied && t.restamps == q.restamps
    requires t.dispatches == q.dispatches
    ensures IsKept(t, b, i, day)
  {
  }

  lemma NotOnRecord(q: Queue, b: Books, i: nat, day: int)
    requires IsKept(q, b, i, day)
    ensures !WasApplied(q.applied, i)
  {
  }

  lemma ResetAfterFailure(o: Queue, grants: seq<Grant>, q: Queue, u: Queue, at: int, i: nat, b: Books, day: int)
    returns (t: Queue)
    requires Reaches(o, grants, u) && IsMidnight(day) && IsOpen(u, grants, day) && u.now == day + 5 * SECOND
    requires IsKept(q, b, i, day) && b.counted + 1 < DAILY_SEND_CAP && !WasApplied(q.applied, i)
    requires i < |q.rows| && q.rows[i].terminalAt.None? && q.rows[i].spec == Reply(at)
    requires u.applied == q.applied && u.restamps == q.restamps && u.dispatches == q.dispatches
    requires exists reason :: u.rows == q.rows[i := MarkFailed(q.rows[i], reason, u.now, true)]
    ensures t == AfterReset(u, i) && Reaches(o, grants, t) && IsKept(t, b, i, day)
  {
    hide Reaches, IsKept;
    WriteKeepsBooks(q, u, b, i, day, i, u.rows[i]);
    var b' := b.(counted := BudgetConsumed(u.rows, day));
    ReplyIsFit(u, grants, at, day);
    Replayed(o, grants, u, i, 0);
    t := AfterReset(u, i);
    assert !Counts(t.rows[i], day) && !Counts(q.rows[i], day);
    WriteKeepsBooks(u, t, b', i, day, i, t.rows[i]);
  }

  /** The notification raises, and the catch-all marks the row, which has been applied since. */
  lemma RaisesLate(o: Queue, grants: seq<Grant>, q: Queue, at: int, i: nat, b: Books, day: int) returns (t: Queue)
    requires Reaches(o, grants, q) && |q.drainers| > 0 && IsTelling(q.drainers[0], i, at)
    requires IsMidnight(day) && q.now == day + 5 * SECOND && IsKept(q, b, i + 1, day) && WasApplied(q.applied, i)
    requires i < |q.rows| && q.rows[i].spec == Reply(at) && q.rows[i].budget && q.rows[i].terminalAt == Some(q.now)
    ensures Reaches(o, grants, t) && SameWorld(q, t) && t.history == q.history && t.applied == q.applied
    ensures t.drainers == q.drainers[0 := t.drainers[0]] && IsFree(t.drainers[0], i + 1, Reply(at))
    ensures IsKept(t, b, i + 1, day)
    ensures t.rows == q.rows[i := MarkFailed(q.rows[i], "drainer_internal_error", q.now, true)]
  {
    hide Reaches, IsKept, IsMidnight;
    var x := q.drainers[0];
    Rest(q.rows, x, Throw);
    QuietStep(o, grants, q, 0, Throw);
    t := At(q, 0, Catch(x, "drainer_internal_error", q.now));
    FailRow(o, grants, t, 0);
    t := AfterFailure(t, 0);
    StampedAt(q.now, Reply(at), i, day);
    LateBooks(q, t, i, b, day);
  }

  lemma LateBooks(q: Queue, t: Queue, i: nat, b: Books, day: int)
    requires IsKept(q, b, i + 1, day) && i < |q.rows| && Counts(q.rows[i], day)
    requires |t.rows| == |q.rows| && t.rows == q.rows[i := t.rows[i]] && Counts(t.rows[i], day)
    requires t.applied == q.applied && t.dispatches == q.dispatches
    requires t.restamps == q.restamps + [Restamp(i, q.rows[i].terminalAt, t.rows[i].terminalAt)]
    ensures IsKept(t, b, i + 1, day)
  {
    BudgetUpdate(q.rows, i, t.rows[i], day);
    assert t.restamps[..|q.restamps|] == q.restamps;
  }

  /** It is replayed once more: its stamp is gone, and a send of the day with it. */
  lemma ResetRefunds(o: Queue, grants: seq<Grant>, q: Queue, at: int, i: nat, b: Books, day: int) returns (t: Queue)
    requires Reaches(o, grants, q) && IsMidnight(day) && IsOpen(q, grants, day) && q.now == day + 5 * SECOND
    requires IsKept(q, b, i + 1, day) && 0 < b.counted < DAILY_SEND_CAP && CountedOnce(q.applied, i, day)
    requires i < |q.rows| && q.rows[i].status.Failed? && q.rows[i].spec == Reply(at) && q.rows[i].budget
    requires q.rows[i].terminalAt == Some(q.now)
    ensures t == AfterReset(q, i) && Reaches(o, grants, t)
    ensures IsKept(t, b.(counted := b.counted - 1, refunds := b.refunds + 1), i + 1, day)
  {
    t := AfterReset(q, i);
    StampedAt(q.now, Reply(at), i, day);
    ResetBooks(q, t, i, b, day);
    ReplyIsFit(q, grants, at, day);
    hide Reaches, IsFit, CountedOnce, IsMidnight, Restamped, BudgetConsumed, UtcAtMost;
    Replayed(o, grants, q, i, 0);
  }

  lemma ResetBooks(q: Queue, t: Queue, i: nat, b: Books, day: int)
    requires IsKept(q, b, i + 1, day) && b.counted > 0 && CountedOnce(q.applied, i, day) && i < |q.rows|
    requires Counts(q.rows[i], day) && t == AfterReset(q, i)
    ensures IsKept(t, b.(counted := b.counted - 1, refunds := b.refunds + 1), i + 1, day)
  {
    BudgetUpdate(q.rows, i, t.rows[i], day);
    var k :| 0 <= k < |q.applied| && q.applied[k].id == i && Counted(q.applied[k], day);
    assert WasApplied(q.applied, i);
    assert t.restamps[..|q.restamps|] == q.restamps;
  }

  /** And a worker takes it up once more and dies. */
  lemma DiesWith(o: Queue, grants: seq<Grant>, q: Queue, d: nat, i: nat, at: int, b: Books, day: int) returns (t: Queue)
    requires Reaches(o, grants, q) && Line(q, i, Reply(at)) && i < |q.rows| && !q.paused && IsKept(q, b, i + 1, day)
    requires d < |q.drainers| && !q.drainers[d].Idle?
    ensures Reaches(o, grants, t) && SameWorld(q, t) && t.history == q.history
    ensures t.drainers == q.drainers[d := Idle] && t.rows == q.rows[i := q.rows[i].(status := Draining)]
    ensures IsKept(t, b, i + 1, day)
  {
    hide Reaches, IsKept;
    Die(o, grants, q, d);
    t := ClaimNextInLine(o, grants, At(q, d, Idle), d, i, Reply(at));
    WriteKeepsBooks(q, t, b, i + 1, day, i, t.rows[i]);
    var u := t;
    Die(o, grants, t, d);
    t := At(t, d, Idle);
    SameBooks(u, t, b, i + 1, day);
  }

  /** One send more than the check can see: row `i` is failed by drainer 0, replayed, sent by drainer 1,
      failed late by drainer 0, and replayed again. */
  lemma SendAndForget(o: Queue, grants: seq<Grant>, q: Queue, at: int, i: nat, b: Books, day: int) returns (t: Queue)
    requires Reaches(o, grants, q) && IsReady(q, grants, at, i, b, day) && q.now == day + 5 * SECOND
    requires |q.drainers| > 1 && i < |q.rows| && b.counted + 1 < DAILY_SEND_CAP
    ensures Reaches(o, grants, t) && SameWorld(q, t)
    ensures IsReady(t, grants, at, i + 1, b.(sent := b.sent + 1, refunds := b.refunds + 1), day)
  {
    hide Reaches, IsKept, IsMidnight;
    var f := FailsAndIsReplayed(o, grants, q, at, i, b, day);
    t := SendsReplayed(o, grants, f, at, i, b, day);
    var c := b.(sent := b.sent + 1, counted := b.counted + 1);
    t := RaisesLate(o, grants, t, at, i, c, day);
    assert IsOpen(t, grants, day);
    t := ResetRefunds(o, grants, t, at, i, c, day);
    t := DiesWith(o, grants, t, 1, i, at, c.(counted := b.counted, refunds := b.refunds + 1), day);
  }

  lemma SendsReplayed(o: Queue, grants: seq<Grant>, q: Queue, at: int, i: nat, b: Books, day: int) returns (t: Queue)
    requires Reaches(o, grants, q) && IsMidnight(day) && IsOpen(q, grants, day) && q.now == day + 5 * SECOND
    requires Line(q, i, Reply(at)) && i < |q.rows| && i !in q.history && IsKept(q, b, i, day)
    requires b.counted < DAILY_SEND_CAP && |q.drainers| > 1 && q.drainers[1].Idle?
    ensures Reaches(o, grants, t) && SameWorld(q, t) && t.history.Keys == q.history.Keys + {i}
    ensures IsKept(t, b.(sent := b.sent + 1, counted := b.counted + 1), i + 1, day)
    ensures WasApplied(t.applied, i) && CountedOnce(t.applied, i, day)
    ensures t.drainers == q.drainers[1 := t.drainers[1]] && t.drainers[1].Looping?
    ensures t.rows == q.rows[i := t.rows[i]] && t.rows[i].spec == Reply(at) && t.rows[i].budget
    ensures t.rows[i].status.Applied? && t.rows[i].terminalAt == Some(q.now)
  {
    assert b.counted == BudgetConsumed(q.rows, day);
    assert q.rows[i].spec == Reply(at);
    hide Reaches, IsMidnight, AllNew;
    var u := Depart(o, grants, q, 1, i, at, day);
    ClaimKeepsBooks(q, u, b, i, day);
    hide IsKept, Line, BudgetConsumed, IsFlying, IsOpen, IsFree, WasApplied, CountedOnce;
    t := Arrive(o, grants, u, 1, i, at, b, day);
    ArrivesSeen(u.applied, i, at, q.now, day);
  }

  lemma ArrivesSeen(done: seq<Application>, i: nat, at: int, now: int, day: int)
    requires IsMidnight(day) && now == day + 5 * SECOND
    ensures var a := done + [Application(i, Reply(at), now)]; WasApplied(a, i) && CountedOnce(a, i, day)
  {
    StampedAt(now, Reply(at), i, day);
    var a := done + [Application(i, Reply(at), now)];
    assert a[|done|].id == i && Counted(a[|done|], day);
  }

  lemma ClaimKeepsBooks(q: Queue, t: Queue, b: Books, i: nat, day: int)
    requires IsKept(q, b, i, day) && i < |q.rows| && t.rows == q.rows[i := q.rows[i].(status := Draining)]
    requires t.restamps == q.restamps && t.applied == q.applied && t.dispatches == q.dispatches
    ensures IsKept(t, b, i, day)
  {
    WriteKeepsBooks(q, t, b, i, day, i, t.rows[i]);
  }

  /** `n` of them. */
  lemma {:induction false} ForgetSome(o: Queue, grants: seq<Grant>, q: Queue, at: int, i: nat, b: Books, n: nat,
      day: int)
    returns (t: Queue)
    requires Reaches(o, grants, q) && IsReady(q, grants, at, i, b, day) && q.now == day + 5 * SECOND
    requires (n > 0 ==> |q.drainers| > 1) && i + n <= |q.rows| && b.counted + 1 < DAILY_SEND_CAP
    ensures Reaches(o, grants, t) && SameWorld(q, t)
    ensures IsReady(t, grants, at, i + n, b.(sent := b.sent + n, refunds := b.refunds + n), day)
    decreases n
  {
    hide Reaches, IsReady;
    t := q;
    if n > 0 {
      t := SendAndForget(o, grants, q, at, i, b, day);
      t := ForgetSome(o, grants, t, at, i + 1, b.(sent := b.sent + 1, refunds := b.refunds + 1), n - 1, day);
    }
  }

  // ----- k drainers at once -----

  predicate FliesInLine(q: Queue, d: nat, i: nat, at: int) { IsFlying(q, d, i + d, at) }

  /** The first `j` drainers have passed the cap with the rows from `i` on; the others are free. */
  predicate IsLaunched(q: Queue, i: nat, j: nat, at: int) {
    && j <= |q.drainers|
    && (forall d | 0 <= d < j :: FliesInLine(q, d, i, at))
    && (forall d | j <= d < |q.drainers| :: IsFree(q.drainers[d], i + j, Reply(at)))
    && (forall d | j <= d < |q.drainers| && d > 0 :: q.drainers[d].Idle?)
  }

  lemma LaunchNext(o: Queue, grants: seq<Grant>, q: Queue, at: int, i: nat, j: nat, b: Books, day: int)
    returns (t: Queue)
    requires Reaches(o, grants, q) && IsMidnight(day) && IsOpen(q, grants, day) && IsKept(q, b, i, day)
    requires IsLaunched(q, i, j, at) && j < |q.drainers| && Line(q, i + j, Reply(at)) && AllNew(q, i + j)
    requires i + j < |q.rows| && b.counted < DAILY_SEND_CAP
    ensures Reaches(o, grants, t) && SameWorld(q, t) && IsKept(t, b, i, day)
    ensures IsLaunched(t, i, j + 1, at) && Line(t, i + j + 1, Reply(at)) && AllNew(t, i + j + 1)
  {
    hide Reaches, IsMidnight, IsOpen;
    t := Depart(o, grants, q, j, i + j, at, day);
    WriteKeepsBooks(q, t, b, i, day, i + j, t.rows[i + j]);
    forall d | 0 <= d < j ensures FliesInLine(t, d, i, at) { assert FliesInLine(q, d, i, at); }
  }

  /** All of them see the same count and pass. */
  lemma {:induction false} LaunchAll(o: Queue, grants: seq<Grant>, q: Queue, at: int, i: nat, j: nat, b: Books,
      day: int)
    returns (t: Queue)
    requires Reaches(o, grants, q) && IsMidnight(day) && IsOpen(q, grants, day) && IsKept(q, b, i, day)
    requires IsLaunched(q, i, j, at) && Line(q, i + j, Reply(at)) && AllNew(q, i + j)
    requires i + |q.drainers| <= |q.rows| && b.counted < DAILY_SEND_CAP
    ensures Reaches(o, grants, t) && SameWorld(q, t) && IsKept(t, b, i, day) && IsLaunched(t, i, |t.drainers|, at)
    decreases |q.drainers| - j
  {
    hide Reaches, IsMidnight, IsOpen, IsKept, Line, AllNew;
    t := q;
    if j < |q.drainers| {
      t := LaunchNext(o, grants, q, at, i, j, b, day);
      assert IsOpen(t, grants, day) by { OpenStays(q, t, grants, day); }
      t := LaunchAll(o, grants, t, at, i, j + 1, b, day);
    }
  }

  lemma OpenStays(q: Queue, t: Queue, grants: seq<Grant>, day: int)
    requires IsOpen(q, grants, day) && SameWorld(q, t)
    ensures IsOpen(t, grants, day)
  {
  }

  /** Those from `j` on are still in the air. */
  predicate IsLanding(q: Queue, i: nat, j: nat, at: int) {
    j <= |q.drainers| && forall d | j <= d < |q.drainers| :: FliesInLine(q, d, i, at)
  }

  lemma {:induction false} LandAll(o: Queue, grants: seq<Grant>, q: Queue, at: int, i: nat, j: nat, b: Books, day: int)
    returns (t: Queue)
    requires Reaches(o, grants, q) && IsMidnight(day) && q.now == day + 5 * SECOND
    requires IsLanding(q, i, j, at) && IsKept(q, b, i + j, day)
    ensures Reaches(o, grants, t) && |t.drainers| == |q.drainers|
    ensures var n := |q.drainers| - j;
            IsKept(t, b.(sent := b.sent + n, counted := b.counted + n), i + |q.drainers|, day)
    decreases |q.drainers| - j
  {
    hide Reaches, IsMidnight, IsKept;
    t := q;
    if j < |q.drainers| {
      assert FliesInLine(q, j, i, at);
      t := Arrive(o, grants, q, j, i + j, at, b, day);
      forall d | j < d < |t.drainers| ensures FliesInLine(t, d, i, at) { assert FliesInLine(q, d, i, at); }
      t := LandAll(o, grants, t, at, i, j + 1, Marked(b, q.now, day), day);
    }
  }

  // ----- the whole run -----

  lemma {:induction false} ProposeAll(q: Queue, grants: seq<Grant>, at: int, n: nat)
    requires q.rows == [] && q.now == at
    ensures Reaches(q, grants, q.(rows := Copies(n, NewRow(Reply(at), Status.CoolingOff))))
  {
    hide Reaches;
    var r := NewRow(Reply(at), Status.CoolingOff);
    if n == 0 {
      assert q.(rows := Copies(0, r)) == q;
      Stay(q, grants);
    } else {
      ProposeAll(q, grants, at, n - 1);
      var t := q.(rows := Copies(n - 1, r));
      assert Copies(n - 1, r) + [r] == Copies(n, r);
      Onward(q, grants, t, Propose(Reply(at)));
    }
  }

  /** All are proposed a window before, and approved and due half a second into the day. */
  lemma Opening(k: nat, total: nat, window: nat, day: int) returns (s: S.Sys, u: S.Sys)
    requires IsMidnight(day) && window * SECOND <= day && k > 0
    ensures A.IsEmpty(s) && |s.queue.drainers| == k && Arrives(window, s, u)
    ensures u.queue.now == day + HALF && |u.queue.drainers| == k && |u.queue.rows| == total
    ensures forall d | 0 <= d < k :: u.queue.drainers[d].Idle?
    ensures IsReady(u.queue, u.auth.grants, day + HALF - window * SECOND, 0, Books(0, 0, 0, 0), day)
  {
    hide Arrives, Reaches, IsMidnight;
    var at := day + HALF - window * SECOND;
    s := Nothing(k, at);
    var t := Proposed(window, s, total, day + HALF);
    var v := MintsGrant(window, s, S.Sys(t, NobodyAsked()), SendReply, "m", Utc(day + HALF + HOUR));
    assert PromoteGranted(t.rows, SendReply) == t.rows;
    var tick := CoolingTick(day + HALF, window);
    ActStep(v, tick);
    Further(window, s, v, S.Act(tick));
    var w := t.(rows := PromoteDue(t.rows, at));
    u := S.Sys(w, v.auth);
    assert w.rows == Copies(total, NewRow(Reply(at), Status.Pending));
    OpeningIsReady(w, u.auth.grants, at, k, day);
  }

  lemma Proposed(window: nat, s: S.Sys, total: nat, now: int) returns (t: Queue)
    requires s.queue.rows == [] && s.queue.now + window * SECOND == now
    ensures Arrives(window, s, S.Sys(t, s.auth))
    ensures t == s.queue.(rows := Copies(total, NewRow(Reply(s.queue.now), Status.CoolingOff)), now := now)
  {
    hide Arrives, Reaches;
    var q := s.queue;
    Here(window, s);
    ProposeAll(q, s.auth.grants, q.now, total);
    t := q.(rows := Copies(total, NewRow(Reply(q.now), Status.CoolingOff)));
    Onward(q, s.auth.grants, t, Advance(window * SECOND));
    t := t.(now := now);
    QueueArrives(window, s, s, t);
  }

  lemma OpeningIsReady(q: Queue, grants: seq<Grant>, at: int, k: nat, day: int)
    requires IsMidnight(day) && q.now == day + HALF && k > 0 && grants == Grants(day)
    requires q == Nothing(k, at).queue.(rows := q.rows, now := q.now)
    requires q.rows == Copies(|q.rows|, NewRow(Reply(at), Status.Pending))
    ensures IsReady(q, grants, at, 0, Books(0, 0, 0, 0), day)
  {
    NothingSeen(q.rows, day);
  }

  lemma {:induction false} NothingSeen(rows: seq<Row>, day: int)
    requires forall i | 0 <= i < |rows| :: rows[i].terminalAt.None?
    ensures BudgetConsumed(rows, day) == 0
  {
    if rows != [] { NothingSeen(rows[..|rows| - 1], day); }
  }

  /** `n` sends in the first second, then `r` whose stamps are taken back, then nineteen, and then all
      drainers at once. */
  lemma Overrun(q: Queue, grants: seq<Grant>, at: int, n: nat, r: nat, day: int) returns (t: Queue)
    requires IsReady(q, grants, at, 0, Books(0, 0, 0, 0), day) && q.now == day + HALF
    requires |q.rows| == n + r + DAILY_SEND_CAP - 1 + |q.drainers| && (r > 0 ==> |q.drainers| > 1)
    requires forall d | 0 <= d < |q.drainers| :: q.drainers[d].Idle?
    ensures Reaches(q, grants, t)
    ensures var m := DAILY_SEND_CAP - 1 + |q.drainers|; IsKept(t, Books(n, n + r + m, m, r), |q.rows|, day)
  {
    hide Reaches, IsKept, IsMidnight;
    Stay(q, grants);
    t := SendSome(q, grants, q, at, 0, Books(0, 0, 0, 0), n, day);
    Onward(q, grants, t, Advance(SECOND * 9 / 2));
    var u := t.(now := day + 5 * SECOND);
    SameBooks(t, u, Books(n, n, 0, 0), n, day);
    t := ForgetSome(q, grants, u, at, n, Books(n, n, 0, 0), r, day);
    t := SendSome(q, grants, t, at, n + r, Books(n, n + r, 0, r), DAILY_SEND_CAP - 1, day);
    var i := n + r + DAILY_SEND_CAP - 1;
    var b := Books(n, i, DAILY_SEND_CAP - 1, r);
    t := LaunchAll(q, grants, t, at, i, 0, b, day);
    t := LandAll(q, grants, t, at, i, 0, b, day);
  }

  /** A run from nothing, with k drainers and that window, to `n` early sends, `r` others whose stamps
      were taken back, and 20 + (k - 1) more on the day. */
  ghost predicate IsOverrun(s: S.Sys, es: seq<S.Event>, k: nat, n: nat, r: nat, window: nat, day: int) {
    && S.Runs(s, es) && A.IsEmpty(s) && |s.queue.drainers| == k && C.RunTicks(S.Ticks(s, es), window, false)
    && var t := S.After(s, es).queue;
       && Calls(t.dispatches, day) == Sent(t.applied, day) == 20 + (k - 1) + n + r
       && SentEarly(t.applied, day) == n && Refunds(t.restamps, t.applied, day) == r
  }

  /** The bound of `DailySends` is exact: for every number of drainers, every number of sends in the
      day's first second, every number of stamps taken back, if there are two drainers, and every
      cooling-off window, a run from an empty database meets it. */
  lemma BoundIsMet(k: nat, n: nat, r: nat, window: nat, day: int)
    requires k > 0 && (r > 0 ==> k > 1) && IsMidnight(day) && window * SECOND <= day
    ensures exists s: S.Sys, es: seq<S.Event> :: IsOverrun(s, es, k, n, r, window, day)
  {
    hide Reaches, Arrives, IsMidnight, IsReady;
    var s, u := Opening(k, n + r + DAILY_SEND_CAP - 1 + k, window, day);
    var t := Overrun(u.queue, u.auth.grants, day + HALF - window * SECOND, n, r, day);
    QueueArrives(window, s, u, t);
    var es := RunOf(window, s, S.Sys(t, u.auth));
    assert IsOverrun(s, es, k, n, r, window, day);
  }
}
