/** `run_tick` and what it calls: the drainer in the code's own control flow, with everybody else
    running between any two of its statements. Each statement is a step of the queue machine, and the
    book the database keeps of the drainer says what the statements did. */
module Worker {
  import opened Actions
  import opened Timestamps
  import opened Tables
  import opened Database
  import S = System
  import Q = Queue
  import O = Ownership
  import opened Reasons

  /** A row claimed by drainer `d`, the rest of its batch, and its count so far. */
  datatype Claim = Claim(d: nat, row: Picked, rest: seq<Picked>, processed: int)

  predicate Holds(s: S.Sys, c: Claim, stage: Q.Stage) {
    && c.d < |s.queue.drainers|
    && var x := s.queue.drainers[c.d];
       x.Working? && x.stage == stage && x.job.id == c.row.id && x.job.spec == c.row.spec
       && x.batch == c.rest && x.processed == c.processed
       && (stage.Recovering? ==> IsInternal(x.job.reason))
  }

  /** The reasons of the row's catch-all guard. */
  predicate IsInternal(reason: string) {
    reason == "drainer_internal_error" || reason == "drainer_internal_error:IntegrityError"
  }

  /** The row is given up, for that reason. */
  predicate IsGivenUp(s: S.Sys, c: Claim, reason: string) {
    Holds(s, c, Q.Failing) && s.queue.drainers[c.d].job.reason == reason
  }

  predicate IsLooping(s: S.Sys, d: nat, batch: seq<Picked>, processed: int) {
    d < |s.queue.drainers| && s.queue.drainers[d] == Q.Looping(batch, processed)
  }

  predicate IsIdle(s: S.Sys, d: nat) { d < |s.queue.drainers| && s.queue.drainers[d].Idle? }

  function StatusOf(s: S.Sys, id: nat): Option<Status> {
    if id < |s.queue.rows| then Some(s.queue.rows[id].status) else None
  }

  /** The row's email is not, or no longer, soft-deleted. */
  predicate IsRepaired(s: S.Sys, spec: Spec) {
    spec.emailId.Some? && spec.emailId.value in s.queue.emails ==> !s.queue.emails[spec.emailId.value].deleted
  }

  /** The drainer's next statement, answered by `c`. */
  method Take(db: Database, d: nat, c: Q.Choice)
    requires db.Valid() && Q.CanDrain(db.state.queue, d, c)
    modifies db
    ensures db.Valid() && db.Continues(old(db.trace), old(db.state)) && d < |db.state.queue.drainers|
    ensures db.state.queue.drainers[d] ==
            Q.DrainNext(old(db.state.queue), old(db.state.auth.grants), old(db.state.queue.drainers[d]), c)
    ensures db.trace == old(db.trace) + [Moment(old(db.state), S.Act(Q.Drain(d, c)), true)]
    ensures db.BookOf(d) == Posted(old(db.BookOf(d)), old(db.state.queue), old(db.state.queue.drainers[d]), c)
  {
    hide Linked, Kept, Posted, Mine;
    KeptGrows(db.trace, Moment(db.state, S.Act(Q.Drain(d, c)), true), d);
    db.Do(S.Act(Q.Drain(d, c)));
  }

  /** The same for the guarded claim of the row at the head of the batch. */
  method TakeClaim(db: Database, d: nat, c: Q.Choice)
    requires db.Valid() && Q.CanDrain(db.state.queue, d, c)
    requires var x := db.state.queue.drainers[d]; x.Looping? && x.batch != []
    modifies db
    ensures db.Valid() && db.Continues(old(db.trace), old(db.state)) && d < |db.state.queue.drainers|
    ensures var x := old(db.state.queue.drainers[d]);
            && db.state.queue.drainers[d] == (if c == Q.Crash then Q.Idle else Q.ClaimNext(old(db.state.queue.rows), x))
            && db.state.queue.rows == Q.RowsAfter(old(db.state.queue.rows), x, c)
            && db.BookOf(d) == Posted(old(db.BookOf(d)), old(db.state.queue), x, c)
  {
    hide Linked, Kept, Posted, Mine;
    KeptGrows(db.trace, Moment(db.state, S.Act(Q.Drain(d, c)), true), d);
    db.Do(S.Act(Q.Drain(d, c)));
  }

  /** The same for a statement that writes the row in hand. */
  method TakeRow(db: Database, d: nat, c: Q.Choice)
    requires db.Valid() && Q.CanDrain(db.state.queue, d, c) && db.state.queue.drainers[d].Working?
    modifies db
    ensures db.Valid() && db.Continues(old(db.trace), old(db.state)) && d < |db.state.queue.drainers|
    ensures db.state.queue.drainers[d] ==
            Q.WorkNext(old(db.state.queue), old(db.state.auth.grants), old(db.state.queue.drainers[d]), c)
    ensures |db.trace| > 0 && db.trace[|db.trace| - 1].before == old(db.state)
    ensures db.BookOf(d) == Posted(old(db.BookOf(d)), old(db.state.queue), old(db.state.queue.drainers[d]), c)
    ensures var x := old(db.state.queue.drainers[d]);
            c == Q.Go ==>
              && x.job.id < |old(db.state.queue.rows)| == |db.state.queue.rows|
              && db.state.queue.rows[x.job.id] == Q.RowAfter(old(db.state.queue.rows)[x.job.id], x.stage, x.job)
              && (x.stage.Repairing? ==> IsRepaired(db.state, x.job.spec))
  {
    hide Linked, Kept, Posted, Mine;
    db.Known();
    assert O.Ready(db.state.queue.rows, db.state.queue.drainers[d]);
    KeptGrows(db.trace, Moment(db.state, S.Act(Q.Drain(d, c)), true), d);
    db.Do(S.Act(Q.Drain(d, c)));
  }

  // ----- verdicts -----

  /** `_mark_failed`, from `_process_claimed_row`. */
  method MarkFailed(db: Database, c: Claim, reason: string) returns (raised: bool)
    requires db.Valid() && IsGivenUp(db.state, c, reason)
    modifies db
    ensures db.Valid() && db.Continues(old(db.trace), old(db.state))
    ensures if raised then Holds(db.state, c, Q.Recovering)
            else if c.row.spec.tier == 1 then IsLooping(db.state, c.d, c.rest, c.processed)
            else Holds(db.state, c, Q.Notifying)
    ensures !raised ==> StatusOf(db.state, c.row.id) == Some(Failed)
    ensures var b := old(db.BookOf(c.d));
            db.BookOf(c.d) == if raised then b.Raise(c.row.id) else b.Verdict(c.row.id, Failed, reason)
  {
    hide Linked, Kept, Mine, SpecsStay;
    db.Yield(Drainer(c.d));
    raised := *;
    TakeRow(db, c.d, if raised then Q.Throw else Q.Go);
  }

  /** `_notify_failure`, above Tier 1. */
  method NotifyFailure(db: Database, c: Claim) returns (raised: bool)
    requires db.Valid() && Holds(db.state, c, Q.Notifying)
    modifies db
    ensures db.Valid() && db.Continues(old(db.trace), old(db.state))
    ensures if raised then Holds(db.state, c, Q.Recovering) else IsLooping(db.state, c.d, c.rest, c.processed)
    ensures var b := old(db.BookOf(c.d)); db.BookOf(c.d) == if raised then b.Raise(c.row.id) else b
  {
    hide Linked, Kept, Mine, SpecsStay;
    db.Yield(Drainer(c.d));
    raised := *;
    TakeRow(db, c.d, if raised then Q.Throw else Q.Go);
  }

  /** What the drainer puts on record for a row: one verdict; or, if a statement raised, that one
      exception, after the verdict or before it. */
  predicate IsProcessed(b: Book, b': Book, id: nat, verdict: Status, reason: string, raised: bool) {
    && (verdict.Applied? || verdict.Failed? || verdict.PendingGrant?) && (reason != "" ==> verdict.Failed?)
    && if raised then b' == b.Raise(id) || b' == b.Verdict(id, verdict, reason).Raise(id)
       else b' == b.Verdict(id, verdict, reason)
  }

  method Fail(db: Database, c: Claim, reason: string) returns (raised: bool)
    requires db.Valid() && IsGivenUp(db.state, c, reason)
    modifies db
    ensures db.Valid() && db.Continues(old(db.trace), old(db.state))
    ensures if raised then Holds(db.state, c, Q.Recovering) else IsLooping(db.state, c.d, c.rest, c.processed)
    ensures IsProcessed(old(db.BookOf(c.d)), db.BookOf(c.d), c.row.id, Failed, reason, raised)
  {
    hide Linked, Kept, Mine, SpecsStay;
    raised := MarkFailed(db, c, reason);
    if !raised && c.row.spec.tier != 1 { raised := NotifyFailure(db, c); }
  }

  /** `_revert_to_pending_grant` */
  method RevertToPendingGrant(db: Database, c: Claim) returns (raised: bool)
    requires db.Valid() && Holds(db.state, c, Q.Waiting)
    modifies db
    ensures db.Valid() && db.Continues(old(db.trace), old(db.state))
    ensures if raised then Holds(db.state, c, Q.Recovering)
            else IsLooping(db.state, c.d, c.rest, c.processed) && StatusOf(db.state, c.row.id) == Some(PendingGrant)
    ensures var b := old(db.BookOf(c.d));
            db.BookOf(c.d) == if raised then b.Raise(c.row.id) else b.Verdict(c.row.id, PendingGrant, "")
  {
    hide Linked, Kept, Mine, SpecsStay;
    db.Yield(Drainer(c.d));
    raised := *;
    TakeRow(db, c.d, if raised then Q.Throw else Q.Go);
  }

  /** EMAIL_CLEAR_SOFT_DELETE */
  method ClearSoftDelete(db: Database, c: Claim) returns (raised: bool)
    requires db.Valid() && Holds(db.state, c, Q.Repairing)
    modifies db
    ensures db.Valid() && db.Continues(old(db.trace), old(db.state))
    ensures if raised then Holds(db.state, c, Q.Recovering)
            else IsLooping(db.state, c.d, c.rest, c.processed) && IsRepaired(db.state, c.row.spec)
    ensures var b := old(db.BookOf(c.d)); db.BookOf(c.d) == if raised then b.Raise(c.row.id) else b
  {
    hide Linked, Kept, Mine, SpecsStay;
    db.Yield(Drainer(c.d));
    raised := *;
    TakeRow(db, c.d, if raised then Q.Throw else Q.Go);
  }

  // ----- the checks -----

  datatype Verdict = Proceed(grant: Option<nat>) | Wait | Refuse(reason: string)

  /** What a row is refused for before its email is read. */
  predicate IsGrantReason(reason: string) { reason == "invalid_tier" || reason == "grant_expired_unauthorized" }

  /** The clock of `is_grant_valid` … */
  method ReadGrantClock(db: Database, c: Claim) returns (now: int)
    requires db.Valid() && Holds(db.state, c, Q.Checking) && (c.row.spec.tier == 2 || c.row.spec.tier == 3)
    modifies db
    ensures db.Valid() && db.Continues(old(db.trace), old(db.state)) && db.BookOf(c.d) == old(db.BookOf(c.d))
    ensures Holds(db.state, c, Q.Scanning) && db.state.queue.drainers[c.d].job.checkedAt == now
  {
    hide Linked, Kept, Mine, SpecsStay;
    db.Yield(Drainer(c.d));
    now := db.state.queue.now;
    Take(db, c.d, Q.Go);
  }

  /** … and its scan of the live grants, in id order. */
  method IsGrantValid(db: Database, action: ActionType, emailId: Option<string>, now: int) returns (g: Option<nat>)
    ensures g == FindGrant(db.state.auth.grants, action, emailId, now)
  {
    if TierFor(action) < 2 { return None; }
    var grants := db.state.auth.grants;
    var i := 0;
    while i < |grants|
      invariant 0 <= i <= |grants|
      invariant FirstGrant(grants, action, emailId, now, 0) == FirstGrant(grants, action, emailId, now, i)
    {
      if IsLive(grants[i], action, now) {
        if |grants[i].ids| == 0 { return Some(i); }
        if emailId.Some? && emailId.value in grants[i].ids { return Some(i); }
      }
      i := i + 1;
    }
    return None;
  }

  /** The grant half of `_check_tier_2` and `_check_tier_3`, and the tier dispatch around them. */
  method CheckGrant(db: Database, c: Claim) returns (raised: bool, v: Verdict)
    requires db.Valid() && Holds(db.state, c, Q.Checking)
    modifies db
    ensures db.Valid() && db.Continues(old(db.trace), old(db.state))
    ensures Holds(db.state, c, if raised then Q.Recovering else if v.Refuse? then Q.Failing
                               else if v.Wait? then Q.Waiting else Q.Vetting)
    ensures !raised && v.Wait? ==> c.row.spec.tier == 2 || c.row.spec.tier == 3
    ensures !raised && v.Refuse? ==> IsGivenUp(db.state, c, v.reason) && IsGrantReason(v.reason)
    ensures !raised && v.Proceed? && c.row.spec.tier != 1 ==>
              db.state.queue.drainers[c.d].job.grant == v.grant && v.grant.Some?
    ensures var b := old(db.BookOf(c.d)); db.BookOf(c.d) == if raised then b.Raise(c.row.id) else b
  {
    hide Linked, Kept, Mine, SpecsStay;
    var s := c.row.spec;
    raised := false;
    if s.tier == 2 || s.tier == 3 {
      var now := ReadGrantClock(db, c);
      raised, v := ScanGrants(db, c, now);
    } else {
      v := if s.tier == 1 then Proceed(None) else Refuse("invalid_tier");
      SkipGrant(db, c);
    }
  }

  /** A tier that has no grant to look for: Tier 1 goes on, any other is invalid. */
  method SkipGrant(db: Database, c: Claim)
    requires db.Valid() && Holds(db.state, c, Q.Checking) && c.row.spec.tier != 2 && c.row.spec.tier != 3
    modifies db
    ensures db.Valid() && db.Continues(old(db.trace), old(db.state)) && db.BookOf(c.d) == old(db.BookOf(c.d))
    ensures if c.row.spec.tier == 1 then Holds(db.state, c, Q.Vetting) else IsGivenUp(db.state, c, "invalid_tier")
  {
    hide Linked, Kept, Mine, SpecsStay;
    db.Yield(Drainer(c.d));
    Take(db, c.d, Q.Go);
  }

  method ScanGrants(db: Database, c: Claim, now: int) returns (raised: bool, v: Verdict)
    requires db.Valid() && Holds(db.state, c, Q.Scanning) && (c.row.spec.tier == 2 || c.row.spec.tier == 3)
    requires db.state.queue.drainers[c.d].job.checkedAt == now
    modifies db
    ensures db.Valid() && db.Continues(old(db.trace), old(db.state))
    ensures Holds(db.state, c, if raised then Q.Recovering else if v.Refuse? then Q.Failing
                               else if v.Wait? then Q.Waiting else Q.Vetting)
    ensures !raised && v.Proceed? ==> db.state.queue.drainers[c.d].job.grant == v.grant && v.grant.Some?
    ensures !raised && v.Refuse? ==> IsGivenUp(db.state, c, v.reason) && IsGrantReason(v.reason)
    ensures var b := old(db.BookOf(c.d)); db.BookOf(c.d) == if raised then b.Raise(c.row.id) else b
  {
    hide Linked, Kept, Mine, SpecsStay, FindGrant;
    var s := c.row.spec;
    db.Yield(Drainer(c.d));
    raised := *;
    var g := IsGrantValid(db, s.action, s.emailId, now);
    if g.Some? {
      v := Proceed(g);
    } else if s.tier == 3 && db.state.queue.now - s.proposedAt > TIER_3_GRANT_WAIT_WINDOW {
      v := Refuse("grant_expired_unauthorized");
    } else {
      v := Wait;
    }
    Take(db, c.d, if raised then Q.Throw else Q.Go);
  }

  /** Where a row that passed its checks goes. */
  function Vetted(a: ActionType): Q.Stage {
    if IsSendFamily(a) then Q.Capping else if IsMoveFamily(a) then Q.Capturing else Q.Recording
  }

  /** The moment is this drainer's reading of the row's email. */
  predicate IsReading(m: Moment, c: Claim) {
    m.mine && m.event == S.Act(Q.Drain(c.d, Q.Go)) && Holds(m.before, c, Q.Vetting)
  }

  /** What the reading decides: a row whose email is not there, or on Tier 3 has changed, is refused for
      that and for nothing else. */
  predicate IsReadAs(m: Moment, c: Claim, failure: Option<string>) {
    && IsReading(m, c)
    && (failure == Some("target_deleted") <==> IsGone(m.before.queue.emails, c.row.spec))
    && (failure == Some("state_drift_etag") <==> HasDrifted(m.before.queue.emails, c.row.spec))
    && (failure.None? <==> IsFine(m.before.queue.emails, c.row.spec))
  }

  lemma ReadFits(emails: map<string, Email>, s: Spec, failure: Option<string>)
    requires failure == Q.VetFailure(emails, s)
    ensures failure == Some("target_deleted") <==> IsGone(emails, s)
    ensures failure == Some("state_drift_etag") <==> HasDrifted(emails, s)
    ensures failure.None? <==> IsFine(emails, s)
  {
  }

  /** `_check_tier_1`, which Tier 2 shares, and the strict marker comparison of `_check_tier_3`. */
  method Vet(db: Database, c: Claim) returns (raised: bool, failure: Option<string>, ghost read: nat)
    requires db.Valid() && Holds(db.state, c, Q.Vetting)
    modifies db
    ensures db.Valid() && db.Continues(old(db.trace), old(db.state))
    ensures !raised ==> old(|db.trace|) <= read < |db.trace| && IsReadAs(db.trace[read], c, failure)
    ensures !raised && failure.Some? ==> IsGivenUp(db.state, c, failure.value)
    ensures Holds(db.state, c, if raised then Q.Recovering else if failure.Some? then Q.Failing
                               else Vetted(c.row.spec.action))
    ensures var b := old(db.BookOf(c.d)); db.BookOf(c.d) == if raised then b.Raise(c.row.id) else b
  {
    hide Linked, Kept, Mine, SpecsStay, IsGone, HasDrifted, IsFine;
    var s := c.row.spec;
    db.Yield(Drainer(c.d));
    raised, failure := *, None;
    if s.emailId.Some? && !(s.tier != 3 && IsRevertRow(s)) {
      var emails, id := db.state.queue.emails, s.emailId.value;
      if id !in emails {
        failure := Some("target_deleted");
      } else if emails[id].deleted {
        failure := Some("target_deleted");
      } else if s.tier == 3 && emails[id].marker != s.marker {
        failure := Some("state_drift_etag");
      }
    }
    read := |db.trace|;
    ReadFits(db.state.queue.emails, s, failure);
    Take(db, c.d, if raised then Q.Throw else Q.Go);
  }

  /** `_send_cap_exceeded` reads the clock … */
  method ReadMidnight(db: Database, c: Claim) returns (midnight: int)
    requires db.Valid() && Holds(db.state, c, Q.Capping)
    modifies db
    ensures db.Valid() && db.Continues(old(db.trace), old(db.state)) && db.BookOf(c.d) == old(db.BookOf(c.d))
    ensures Holds(db.state, c, Q.Counting) && db.state.queue.drainers[c.d].job.since == midnight
  {
    hide Linked, Kept, Mine, SpecsStay;
    db.Yield(Drainer(c.d));
    midnight := Midnight(db.state.queue.now);
    Take(db, c.d, Q.Go);
  }

  /** … and counts afterwards. */
  method SendCapExceeded(db: Database, c: Claim, midnight: int) returns (raised: bool, exceeded: bool)
    requires db.Valid() && Holds(db.state, c, Q.Counting) && db.state.queue.drainers[c.d].job.since == midnight
    modifies db
    ensures db.Valid() && db.Continues(old(db.trace), old(db.state))
    ensures Holds(db.state, c, if raised then Q.Recovering else if exceeded then Q.Failing else Q.Recording)
    ensures !raised && exceeded ==> IsGivenUp(db.state, c, "daily_send_cap_exceeded")
    ensures var b := old(db.BookOf(c.d)); db.BookOf(c.d) == if raised then b.Raise(c.row.id) else b
  {
    hide Linked, Kept, Mine, SpecsStay;
    db.Yield(Drainer(c.d));
    raised := *;
    exceeded := BudgetConsumed(db.state.queue.rows, midnight) >= DAILY_SEND_CAP;
    Take(db, c.d, if raised then Q.Throw else Q.Go);
  }

  /** `_capture_move_pre_state`; Graph may not answer. */
  method CaptureMovePreState(db: Database, c: Claim) returns (pre: Option<string>)
    requires db.Valid() && Holds(db.state, c, Q.Capturing)
    modifies db
    ensures db.Valid() && db.Continues(old(db.trace), old(db.state)) && db.BookOf(c.d) == old(db.BookOf(c.d))
    ensures if pre.Some? then Holds(db.state, c, Q.Recording) else IsGivenUp(db.state, c, "pre_state_capture_failed")
    ensures pre.Some? ==> pre.value != "" && db.state.queue.drainers[c.d].job.pre == pre
  {
    hide Linked, Kept, Mine, SpecsStay;
    db.Yield(Drainer(c.d));
    var answered: bool := *;
    var mailbox, e := db.state.queue.mailbox, c.row.spec.emailId;
    pre := None;
    if answered && e.Some? && e.value in mailbox && mailbox[e.value] != "" { pre := Some(mailbox[e.value]); }
    Take(db, c.d, if answered then Q.Go else Q.Fail);
  }

  // ----- the dispatch -----

  /** `_insert_history`: the second insert for a row raises on its primary key. */
  method InsertHistory(db: Database, c: Claim) returns (raised: bool)
    requires db.Valid() && Holds(db.state, c, Q.Recording)
    modifies db
    ensures db.Valid() && db.Continues(old(db.trace), old(db.state))
    ensures Holds(db.state, c, if raised then Q.Recovering else Q.Dispatching)
    ensures var b := old(db.BookOf(c.d)); db.BookOf(c.d) == if raised then b.Raise(c.row.id) else b
  {
    hide Linked, Kept, Mine, SpecsStay;
    db.Yield(Drainer(c.d));
    raised := *;
    var duplicate := c.row.id in db.state.queue.history;
    Take(db, c.d, if raised then Q.Throw else Q.Go);
    raised := raised || duplicate;
  }

  lemma LocalIsAccepted(q: Q.Queue, s: Spec)
    ensures IsLocalOnly(s.action) ==> Q.CanAccept(q, s)
  {
  }

  /** `adapter.apply`: accepted, refused, or lost on the way back. */
  method Apply(db: Database, c: Claim) returns (ok: bool)
    requires db.Valid() && Holds(db.state, c, Q.Dispatching)
    modifies db
    ensures db.Valid() && db.Continues(old(db.trace), old(db.state)) && db.BookOf(c.d) == old(db.BookOf(c.d))
    ensures if ok then Holds(db.state, c, Q.Stamping) else IsGivenUp(db.state, c, "provider_error")
  {
    hide Linked, Kept, Mine, SpecsStay;
    db.Yield(Drainer(c.d));
    var accepts, lost: bool := *, *;
    LocalIsAccepted(db.state.queue, c.row.spec);
    ok := IsLocalOnly(c.row.spec.action) || (accepts && Q.CanAccept(db.state.queue, c.row.spec));
    Take(db, c.d, if ok then Q.Go else if lost then Q.LostReply else Q.Fail);
  }

  /** `_mark_applied` reads the clock … */
  method ReadClock(db: Database, c: Claim)
    requires db.Valid() && Holds(db.state, c, Q.Stamping)
    modifies db
    ensures db.Valid() && db.Continues(old(db.trace), old(db.state)) && db.BookOf(c.d) == old(db.BookOf(c.d))
    ensures Holds(db.state, c, Q.Marking)
  {
    hide Linked, Kept, Mine, SpecsStay;
    db.Yield(Drainer(c.d));
    Take(db, c.d, Q.Go);
  }

  /** A revert that succeeds has its email's soft-delete to clear as well. */
  predicate NeedsRepair(s: Spec) { IsRevertRow(s) && s.emailId.Some? }

  /** … and writes. */
  method MarkApplied(db: Database, c: Claim) returns (raised: bool)
    requires db.Valid() && Holds(db.state, c, Q.Marking)
    modifies db
    ensures db.Valid() && db.Continues(old(db.trace), old(db.state))
    ensures if raised then Holds(db.state, c, Q.Recovering)
            else if NeedsRepair(c.row.spec) then Holds(db.state, c, Q.Repairing)
            else IsLooping(db.state, c.d, c.rest, c.processed)
    ensures !raised ==> StatusOf(db.state, c.row.id) == Some(Applied)
    ensures var b := old(db.BookOf(c.d));
            db.BookOf(c.d) == if raised then b.Raise(c.row.id) else b.Verdict(c.row.id, Applied, "")
  {
    hide Linked, Kept, Mine, SpecsStay;
    db.Yield(Drainer(c.d));
    raised := *;
    TakeRow(db, c.d, if raised then Q.Throw else Q.Go);
  }

  // ----- one row -----

  /** The verdict and the one reading of the row's email, if there was one: nothing is applied without a
      fine reading, and the row is failed for its target or for drift exactly if the reading said so. */
  predicate IsJudged(trace: seq<Moment>, from: nat, c: Claim, verdict: Status, reason: string, read: Option<nat>) {
    match read
    case None => !verdict.Applied? && reason != "target_deleted" && reason != "state_drift_etag"
    case Some(k) =>
      && from <= k < |trace| && IsReading(trace[k], c)
      && var emails := trace[k].before.queue.emails;
         && (reason == "target_deleted" <==> IsGone(emails, c.row.spec))
         && (reason == "state_drift_etag" <==> HasDrifted(emails, c.row.spec))
         && (verdict.Applied? ==> IsFine(emails, c.row.spec))
  }

  lemma Judge(trace: seq<Moment>, later: seq<Moment>, from: nat, c: Claim, failure: Option<string>, k: nat,
      verdict: Status, reason: string)
    requires from <= k < |trace| && trace <= later && IsReadAs(trace[k], c, failure)
    requires if failure.Some? then reason == failure.value && !verdict.Applied?
             else reason != "target_deleted" && reason != "state_drift_etag"
    ensures IsJudged(later, from, c, verdict, reason, Some(k))
  {
    hide IsReading, IsGone, HasDrifted;
  }

  /** `_process_claimed_row`: it raises exactly if one of its statements did, and otherwise has written the
      row's one verdict, which is what its reading of the email calls for, and cleared the soft-delete of an
      applied revert. */
  method ProcessClaimedRow(db: Database, c: Claim)
    returns (raised: bool, ghost verdict: Status, ghost reason: string, ghost read: Option<nat>)
    requires db.Valid() && Holds(db.state, c, Q.Checking)
    modifies db
    ensures db.Valid() && db.Continues(old(db.trace), old(db.state))
    ensures if raised then Holds(db.state, c, Q.Recovering) else IsLooping(db.state, c.d, c.rest, c.processed)
    ensures IsProcessed(old(db.BookOf(c.d)), db.BookOf(c.d), c.row.id, verdict, reason, raised)
    ensures IsJudged(db.trace, old(|db.trace|), c, verdict, reason, read)
    ensures !raised && verdict.Applied? && NeedsRepair(c.row.spec) ==> IsRepaired(db.state, c.row.spec)
  {
    hide Linked, Kept, Mine, SpecsStay, IsReading, IsGone, HasDrifted, Holds, IsLooping, IsGivenUp, IsRepaired;
    var v;
    raised, v := CheckGrant(db, c);
    verdict, reason, read := Failed, "", None;
    if raised { return; }
    if v.Wait? {
      raised := RevertToPendingGrant(db, c);
      verdict := PendingGrant;
    } else if v.Refuse? {
      reason := v.reason;
      raised := Fail(db, c, v.reason);
    } else {
      raised, verdict, reason, read := VetAndDispatch(db, c);
    }
  }

  method VetAndDispatch(db: Database, c: Claim)
    returns (raised: bool, ghost verdict: Status, ghost reason: string, ghost read: Option<nat>)
    requires db.Valid() && Holds(db.state, c, Q.Vetting)
    modifies db
    ensures db.Valid() && db.Continues(old(db.trace), old(db.state))
    ensures if raised then Holds(db.state, c, Q.Recovering) else IsLooping(db.state, c.d, c.rest, c.processed)
    ensures IsProcessed(old(db.BookOf(c.d)), db.BookOf(c.d), c.row.id, verdict, reason, raised)
    ensures IsJudged(db.trace, old(|db.trace|), c, verdict, reason, read)
    ensures !raised && verdict.Applied? && NeedsRepair(c.row.spec) ==> IsRepaired(db.state, c.row.spec)
  {
    hide Linked, Kept, Mine, SpecsStay, IsJudged, IsReadAs, IsRepaired;
    verdict, reason, read := Failed, "", None;
    var failure;
    ghost var k;
    raised, failure, k := Vet(db, c);
    if raised {
      NothingJudged(db.trace, old(|db.trace|), c);
      return;
    }
    read := Some(k);
    ghost var seen := db.trace;
    if failure.Some? {
      reason := failure.value;
      raised := Fail(db, c, failure.value);
    } else {
      raised, verdict, reason := CapAndDispatch(db, c);
    }
    Judge(seen, db.trace, old(|db.trace|), c, failure, k, verdict, reason);
  }

  lemma NothingJudged(trace: seq<Moment>, from: nat, c: Claim)
    ensures IsJudged(trace, from, c, Failed, "", None)
  {
  }

  method CapAndDispatch(db: Database, c: Claim) returns (raised: bool, ghost verdict: Status, ghost reason: string)
    requires db.Valid() && Holds(db.state, c, Vetted(c.row.spec.action))
    modifies db
    ensures db.Valid() && db.Continues(old(db.trace), old(db.state))
    ensures if raised then Holds(db.state, c, Q.Recovering) else IsLooping(db.state, c.d, c.rest, c.processed)
    ensures IsProcessed(old(db.BookOf(c.d)), db.BookOf(c.d), c.row.id, verdict, reason, raised)
    ensures verdict.Failed? || (verdict.Applied? && reason == "")
    ensures reason in {"", "daily_send_cap_exceeded", "pre_state_capture_failed", "provider_error"}
    ensures !raised && verdict.Applied? && NeedsRepair(c.row.spec) ==> IsRepaired(db.state, c.row.spec)
  {
    hide Linked, Kept, Mine, SpecsStay, Holds, IsLooping, IsGivenUp, IsRepaired;
    verdict, reason := Failed, "";
    var failure;
    raised, failure := CapOrCapture(db, c);
    if raised { return; }
    if failure.Some? {
      reason := failure.value;
      raised := Fail(db, c, failure.value);
    } else {
      raised, verdict, reason := Dispatch(db, c);
    }
  }

  /** The send cap and the captured folder. */
  method CapOrCapture(db: Database, c: Claim) returns (raised: bool, failure: Option<string>)
    requires db.Valid() && Holds(db.state, c, Vetted(c.row.spec.action))
    modifies db
    ensures db.Valid() && db.Continues(old(db.trace), old(db.state))
    ensures if raised then Holds(db.state, c, Q.Recovering)
            else if failure.Some? then IsGivenUp(db.state, c, failure.value) else Holds(db.state, c, Q.Recording)
    ensures failure.Some? ==> failure.value == if IsSendFamily(c.row.spec.action) then "daily_send_cap_exceeded"
                                               else "pre_state_capture_failed"
    ensures var b := old(db.BookOf(c.d)); db.BookOf(c.d) == if raised then b.Raise(c.row.id) else b
  {
    hide Linked, Kept, Mine, SpecsStay;
    raised, failure := false, None;
    if IsSendFamily(c.row.spec.action) {
      var midnight := ReadMidnight(db, c);
      var exceeded;
      raised, exceeded := SendCapExceeded(db, c, midnight);
      if exceeded { failure := Some("daily_send_cap_exceeded"); }
    } else if IsMoveFamily(c.row.spec.action) {
      var pre := CaptureMovePreState(db, c);
      if pre.None? { failure := Some("pre_state_capture_failed"); }
    }
  }

  /** `_process_claimed_row`, from the history row on: it exists before Graph is asked. */
  method Dispatch(db: Database, c: Claim) returns (raised: bool, ghost verdict: Status, ghost reason: string)
    requires db.Valid() && Holds(db.state, c, Q.Recording)
    modifies db
    ensures db.Valid() && db.Continues(old(db.trace), old(db.state))
    ensures if raised then Holds(db.state, c, Q.Recovering) else IsLooping(db.state, c.d, c.rest, c.processed)
    ensures IsProcessed(old(db.BookOf(c.d)), db.BookOf(c.d), c.row.id, verdict, reason, raised)
    ensures verdict.Applied? || (verdict.Failed? && reason in {"", "provider_error"})
    ensures !raised && verdict.Applied? && NeedsRepair(c.row.spec) ==> IsRepaired(db.state, c.row.spec)
  {
    hide Linked, Kept, Mine, SpecsStay, Holds, IsLooping, IsGivenUp, IsRepaired;
    verdict, reason := Failed, "";
    raised := InsertHistory(db, c);
    if raised { return; }
    var ok := Apply(db, c);
    if ok {
      raised := Finish(db, c);
      verdict := Applied;
    } else {
      reason := "provider_error";
      raised := Fail(db, c, "provider_error");
    }
  }

  /** Graph has accepted. */
  method Finish(db: Database, c: Claim) returns (raised: bool)
    requires db.Valid() && Holds(db.state, c, Q.Stamping)
    modifies db
    ensures db.Valid() && db.Continues(old(db.trace), old(db.state))
    ensures if raised then Holds(db.state, c, Q.Recovering) else IsLooping(db.state, c.d, c.rest, c.processed)
    ensures IsProcessed(old(db.BookOf(c.d)), db.BookOf(c.d), c.row.id, Applied, "", raised)
    ensures !raised && NeedsRepair(c.row.spec) ==> IsRepaired(db.state, c.row.spec)
  {
    hide Linked, Kept, Mine, SpecsStay, Holds, IsLooping, IsGivenUp, IsRepaired;
    ReadClock(db, c);
    raised := MarkApplied(db, c);
    if !raised && NeedsRepair(c.row.spec) { raised := ClearSoftDelete(db, c); }
  }

  // ----- the tick -----

  /** The tick goes on, stops at a pause, or its exception reaches the loop around it. `lost` is a
      row whose last-resort write failed too: it stays `draining`. */
  datatype Next = Continue(lost: bool) | Stop | Raised

  /** `snapshot_now` fails closed; a paused drainer gives its row back. */
  method PausedAgain(db: Database, c: Claim) returns (paused: bool)
    requires db.Valid() && Holds(db.state, c, Q.Claimed)
    modifies db
    ensures db.Valid() && db.Continues(old(db.trace), old(db.state))
    ensures Holds(db.state, c, if paused then Q.Releasing else Q.Checking)
    ensures var b := old(db.BookOf(c.d)); db.BookOf(c.d) == if paused then b.Pause(c.row.id) else b
  {
    hide Linked, Kept, Mine, SpecsStay;
    db.Yield(Drainer(c.d));
    var unreadable: bool := *;
    paused := unreadable || db.state.queue.paused;
    Take(db, c.d, if unreadable then Q.Fail else Q.Go);
  }

  method ReleaseClaim(db: Database, c: Claim) returns (raised: bool)
    requires db.Valid() && Holds(db.state, c, Q.Releasing)
    modifies db
    ensures db.Valid() && db.Continues(old(db.trace), old(db.state)) && IsIdle(db.state, c.d)
    ensures !raised ==> |db.trace| > 0 &&
                        var was := StatusOf(db.trace[|db.trace| - 1].before, c.row.id);
                        StatusOf(db.state, c.row.id) == if was == Some(Draining) then Some(Pending) else was
    ensures var b := old(db.BookOf(c.d)); db.BookOf(c.d) == if raised then b else b.Release(c.row.id)
  {
    hide Linked, Kept, Mine, SpecsStay;
    db.Yield(Drainer(c.d));
    raised := *;
    TakeRow(db, c.d, if raised then Q.Crash else Q.Go);
  }

  /** The recovery guard of `run_tick`. */
  method Recover(db: Database, c: Claim) returns (lost: bool)
    requires db.Valid() && Holds(db.state, c, Q.Recovering)
    modifies db
    ensures db.Valid() && db.Continues(old(db.trace), old(db.state))
    ensures IsLooping(db.state, c.d, c.rest, c.processed)
    ensures !lost ==> StatusOf(db.state, c.row.id) == Some(Failed)
    ensures var b, reason := old(db.BookOf(c.d)), old(db.state.queue.drainers[c.d].job.reason);
            db.BookOf(c.d) == if lost then b.Lose(c.row.id) else b.Verdict(c.row.id, Failed, reason)
  {
    hide Linked, Kept, Mine, SpecsStay;
    db.Yield(Drainer(c.d));
    lost := *;
    TakeRow(db, c.d, if lost then Q.Lose else Q.Go);
  }

  /** The drainer's record of a row it has claimed. It met a pause exactly if the tick stops or raises
      there, and has given the row back exactly if it stops; otherwise it wrote a verdict, and a second
      one, `failed`, exactly if a statement raised and the last resort held. */
  ghost predicate IsDrained(b: Book, b': Book, id: nat, verdict: Status, reason: string, next: Next) {
    match next
    case Stop => b' == b.Pause(id).Release(id)
    case Raised => b' == b.Pause(id)
    case Continue(lost) =>
      || (!lost && IsProcessed(b, b', id, verdict, reason, false))
      || exists m: Book, why: string :: IsRecovered(b, m, b', id, verdict, reason, why, lost)
  }

  /** A statement raised, and the last resort wrote why, or was lost. */
  predicate IsRecovered(b: Book, m: Book, b': Book, id: nat, verdict: Status, reason: string, why: string, lost: bool) {
    && IsProcessed(b, m, id, verdict, reason, true) && IsInternal(why)
    && b' == if lost then m.Lose(id) else m.Verdict(id, Failed, why)
  }

  /** What the tick does with a row it has claimed. */
  method DrainRow(db: Database, c: Claim)
    returns (next: Next, ghost verdict: Status, ghost reason: string, ghost read: Option<nat>)
    requires db.Valid() && Holds(db.state, c, Q.Claimed)
    modifies db
    ensures db.Valid() && db.Continues(old(db.trace), old(db.state))
    ensures if next.Continue? then IsLooping(db.state, c.d, c.rest, c.processed) else IsIdle(db.state, c.d)
    ensures IsDrained(old(db.BookOf(c.d)), db.BookOf(c.d), c.row.id, verdict, reason, next)
    ensures next.Continue? ==> IsJudged(db.trace, old(|db.trace|), c, verdict, reason, read)
  {
    hide Linked, Kept, Mine, SpecsStay, IsProcessed, IsReading, IsGone, HasDrifted;
    verdict, reason, read := Failed, "", None;
    var paused := PausedAgain(db, c);
    if paused {
      var raised := ReleaseClaim(db, c);
      next := if raised then Raised else Stop;
      return;
    }
    var raised;
    raised, verdict, reason, read := ProcessClaimedRow(db, c);
    next := Continue(false);
    if raised {
      ghost var m, why := db.BookOf(c.d), db.state.queue.drainers[c.d].job.reason;
      var lost := Recover(db, c);
      assert IsRecovered(old(db.BookOf(c.d)), m, db.BookOf(c.d), c.row.id, verdict, reason, why, lost);
      next := Continue(lost);
    }
  }

  /** `_claim_row`: a drainer that lost the race goes on to the next row. */
  method ClaimRow(db: Database, c: Claim) returns (raised: bool, won: bool)
    requires db.Valid() && IsLooping(db.state, c.d, [c.row] + c.rest, c.processed - 1)
    modifies db
    ensures db.Valid() && db.Continues(old(db.trace), old(db.state))
    ensures if raised then IsIdle(db.state, c.d) && !won
            else if won then Holds(db.state, c, Q.Claimed) && StatusOf(db.state, c.row.id) == Some(Draining)
            else IsLooping(db.state, c.d, c.rest, c.processed - 1)
    ensures var b := old(db.BookOf(c.d));
            db.BookOf(c.d) == if raised then b
                              else b.(tries := b.tries + [c.row.id],
                                      claims := if won then b.claims + [c.row.id] else b.claims)
  {
    hide Linked, Kept, Mine, SpecsStay;
    db.Yield(Drainer(c.d));
    raised := *;
    won := !raised && Q.IsClaimable(db.state.queue.rows, c.row);
    assert ([c.row] + c.rest)[1..] == c.rest;
    TakeClaim(db, c.d, if raised then Q.Crash else Q.Go);
  }

  /** The tick's own pause read. */
  method Gate(db: Database, d: nat) returns (paused: bool)
    requires db.Valid() && IsIdle(db.state, d)
    modifies db
    ensures db.Valid() && db.Continues(old(db.trace), old(db.state)) && d < |db.state.queue.drainers|
    ensures db.state.queue.drainers[d] == if paused then Q.Idle else Q.Polled
    ensures var b := old(db.BookOf(d)); db.BookOf(d) == b.(gates := b.gates + [paused])
  {
    hide Linked, Kept, Mine, SpecsStay;
    db.Yield(Drainer(d));
    var unreadable: bool := *;
    paused := unreadable || db.state.queue.paused;
    Take(db, d, if unreadable then Q.Fail else Q.Go);
  }

  method Prefetch(db: Database, d: nat) returns (raised: bool, batch: seq<Picked>)
    requires db.Valid() && d < |db.state.queue.drainers| && db.state.queue.drainers[d].Polled?
    modifies db
    ensures db.Valid() && db.Continues(old(db.trace), old(db.state))
    ensures if raised then IsIdle(db.state, d) else IsLooping(db.state, d, batch, 0)
    ensures IsBatch(batch)
    ensures var b := old(db.BookOf(d)); db.BookOf(d) == if raised then b else b.(polls := b.polls + [batch])
  {
    hide Linked, Kept, Mine, SpecsStay;
    db.Yield(Drainer(d));
    raised, batch := *, [];
    if raised {
      Take(db, d, Q.Crash);
    } else {
      batch := SelectDrainable(db.state.queue.rows, BATCH_SIZE);
      Take(db, d, Q.Pick(batch));
    }
  }

  predicate IsBatch(batch: seq<Picked>) {
    |batch| <= BATCH_SIZE && forall i, j | 0 <= i < j < |batch| :: batch[i].id != batch[j].id
  }

  // ----- one tick -----

  /** The row met a pause, has a verdict written, or was lost in the write of last resort. */
  predicate IsAccounted(t: Book, id: nat) {
    id in t.pauses || id in t.losses || exists k | 0 <= k < |t.verdicts| :: t.verdicts[k].id == id
  }

  function Ids(batch: seq<Picked>): (ids: seq<nat>)
    ensures |ids| == |batch| && forall i | 0 <= i < |ids| :: ids[i] == batch[i].id
  {
    seq(|batch|, i requires 0 <= i < |batch| => batch[i].id)
  }

  predicate Distinct(ids: seq<nat>) { forall i, j | 0 <= i < j < |ids| :: ids[i] != ids[j] }

  /** A tick that got its batch: it tries the batch in order, claims no row twice, and every row it
      claims is accounted for; a row is lost only after an exception. */
  predicate IsDraining(t: Book) {
    && t.gates == [false] && |t.polls| == 1 && IsBatch(t.polls[0]) && t.tries <= Ids(t.polls[0])
    && Distinct(t.claims) && (forall id | id in t.claims :: id in t.tries && IsAccounted(t, id))
    && (forall id | id in t.losses :: id in t.raises)
  }

  /** What one tick puts on record, and what it returns. */
  predicate IsTick(t: Book, processed: int, raised: bool) {
    if t.polls == [] then
      // it read a pause, or that it cannot tell, or its prefetch raised
      && |t.gates| == 1 && t == EMPTY_BOOK.(gates := t.gates) && raised == !t.gates[0] && processed == 0
    else
      && IsDraining(t) && |t.pauses| <= 1
      && (raised ==> t.releases == [])
      // otherwise it gave back the row it met a pause with, and stopped there, or tried the whole batch
      && (!raised ==> && t.releases == t.pauses && processed == |t.claims| - |t.releases|
                      && (t.pauses == [] ==> t.tries == Ids(t.polls[0])))
  }

  lemma ThenAppends(b: Book, t: Book, id: nat, status: Status, reason: string)
    ensures b.Then(t).Pause(id) == b.Then(t.Pause(id)) && b.Then(t).Release(id) == b.Then(t.Release(id))
    ensures b.Then(t).Raise(id) == b.Then(t.Raise(id)) && b.Then(t).Lose(id) == b.Then(t.Lose(id))
    ensures b.Then(t).Verdict(id, status, reason) == b.Then(t.Verdict(id, status, reason))
  {
  }

  /** The record of a row does not depend on what was there before. */
  lemma DrainedAfter(b: Book, t: Book, b': Book, id: nat, verdict: Status, reason: string, next: Next)
    returns (t': Book)
    requires IsDrained(b.Then(t), b', id, verdict, reason, next)
    ensures b' == b.Then(t') && IsDrained(t, t', id, verdict, reason, next)
  {
    hide Book.Then;
    ThenAppends(b, t, id, verdict, reason);
    match next
    case Stop =>
      ThenAppends(b, t.Pause(id), id, verdict, reason);
      t' := t.Pause(id).Release(id);
    case Raised =>
      t' := t.Pause(id);
    case Continue(lost) =>
      if !lost && IsProcessed(b.Then(t), b', id, verdict, reason, false) {
        t' := t.Verdict(id, verdict, reason);
      } else {
        var m, why :| IsRecovered(b.Then(t), m, b', id, verdict, reason, why, lost);
        t' := RaisedAfter(b, t, m, b', id, verdict, reason, why, lost);
      }
  }

  lemma RaisedAfter(b: Book, t: Book, m: Book, b': Book, id: nat, verdict: Status, reason: string, why: string,
      lost: bool)
    returns (t': Book)
    requires IsRecovered(b.Then(t), m, b', id, verdict, reason, why, lost)
    ensures b' == b.Then(t') && IsDrained(t, t', id, verdict, reason, Continue(lost))
  {
    hide Book.Then;
    ThenAppends(b, t, id, verdict, reason);
    ThenAppends(b, t.Verdict(id, verdict, reason), id, verdict, reason);
    var n := if m == b.Then(t).Raise(id) then t.Raise(id) else t.Verdict(id, verdict, reason).Raise(id);
    assert m == b.Then(n) && IsProcessed(t, n, id, verdict, reason, true);
    ThenAppends(b, n, id, Failed, why);
    t' := if lost then n.Lose(id) else n.Verdict(id, Failed, why);
    assert IsRecovered(t, n, t', id, verdict, reason, why, lost);
  }

  predicate SameButVerdicts(t: Book, t': Book) {
    && t' == t.(raises := t'.raises, verdicts := t'.verdicts, losses := t'.losses)
    && t.raises <= t'.raises && t.verdicts <= t'.verdicts && t.losses <= t'.losses
  }

  lemma DrainedIsAccounted(t: Book, t': Book, id: nat, verdict: Status, reason: string, lost: bool)
    requires IsDrained(t, t', id, verdict, reason, Continue(lost))
    ensures SameButVerdicts(t, t') && IsAccounted(t', id)
    ensures (forall k | k in t.losses :: k in t.raises) ==> (forall k | k in t'.losses :: k in t'.raises)
  {
    assert |t'.verdicts| > |t.verdicts| ==> t'.verdicts[|t'.verdicts| - 1].id == id;
    assert |t'.losses| > |t.losses| ==> t'.losses[|t'.losses| - 1] == id;
    assert |t'.raises| > |t.raises| ==> t'.raises[|t'.raises| - 1] == id;
  }

  lemma StaysAccounted(t: Book, t': Book, id: nat)
    requires SameButVerdicts(t, t') && IsAccounted(t, id)
    ensures IsAccounted(t', id)
  {
    if exists k | 0 <= k < |t.verdicts| :: t.verdicts[k].id == id {
      var k :| 0 <= k < |t.verdicts| && t.verdicts[k].id == id;
      assert t'.verdicts[k].id == id;
    }
  }

  /** The tick has claimed row `i` of its batch and gone through with it. */
  lemma TickGoesOn(t: Book, batch: seq<Picked>, i: nat, t': Book, verdict: Status, reason: string, next: Next)
    requires IsDraining(t) && t.polls == [batch] && i < |batch| && t.tries == Ids(batch)[..i]
    requires t.pauses == [] && t.releases == []
    requires IsDrained(Tried(t, batch[i].id, true), t', batch[i].id, verdict, reason, next)
    ensures IsDraining(t') && t'.polls == [batch] && t'.tries == Ids(batch)[..i + 1]
    ensures t'.claims == t.claims + [batch[i].id]
    ensures t'.pauses == (if next.Continue? then [] else [batch[i].id])
    ensures t'.releases == if next.Stop? then [batch[i].id] else []
  {
    var id := batch[i].id;
    var u := Tried(t, id, true);
    if next.Continue? { DrainedIsAccounted(u, t', id, verdict, reason, next.lost); }
    assert t'.claims == t.claims + [id] && t'.tries == t.tries + [id];
    forall k | k in t'.claims ensures k in t'.tries && IsAccounted(t', k) {
      if k in t.claims {
        assert k in t.tries && IsAccounted(t, k);
        assert IsAccounted(u, k);
        if next.Continue? { StaysAccounted(u, t', k); }
      }
    }
    forall k | 0 <= k < |t.claims| ensures t.claims[k] != id {
      assert t.claims[k] in t.tries;
      var j :| 0 <= j < i && Ids(batch)[j] == t.claims[k];
      assert batch[j].id != batch[i].id;
    }
  }

  function Tried(t: Book, id: nat, won: bool): Book {
    t.(tries := t.tries + [id], claims := if won then t.claims + [id] else t.claims)
  }

  lemma ThenTried(b: Book, t: Book, id: nat, won: bool)
    ensures Tried(b.Then(t), id, won) == b.Then(Tried(t, id, won))
  {
  }

  lemma LostTheRace(t: Book, batch: seq<Picked>, i: nat)
    requires IsDraining(t) && t.polls == [batch] && i < |batch| && t.tries == Ids(batch)[..i]
    ensures IsDraining(Tried(t, batch[i].id, false)) && Tried(t, batch[i].id, false).tries == Ids(batch)[..i + 1]
  {
    assert Ids(batch)[..i + 1] == Ids(batch)[..i] + [batch[i].id];
    forall k | k in t.claims ensures IsAccounted(Tried(t, batch[i].id, false), k) {
      StaysAccounted(t, t, k);
    }
  }

  /** The row the tick is at: tried, and drained if the claim was won. */
  method TryRow(db: Database, c: Claim, ghost b: Book, ghost t: Book, ghost batch: seq<Picked>, ghost i: nat)
    returns (won: bool, next: Next, ghost t': Book)
    requires db.Valid() && IsLooping(db.state, c.d, [c.row] + c.rest, c.processed - 1) && db.BookOf(c.d) == b.Then(t)
    requires IsDraining(t) && t.polls == [batch] && i < |batch| && batch[i] == c.row && t.tries == Ids(batch)[..i]
    requires t.pauses == [] && t.releases == []
    modifies db
    ensures db.Valid() && db.Continues(old(db.trace), old(db.state)) && db.BookOf(c.d) == b.Then(t')
    ensures if next.Continue? then IsLooping(db.state, c.d, c.rest, if won then c.processed else c.processed - 1)
            else IsIdle(db.state, c.d)
    ensures IsDraining(t') && t'.polls == [batch] && |t'.claims| == |t.claims| + (if won then 1 else 0)
    ensures next.Continue? ==> t'.tries == Ids(batch)[..i + 1]
    ensures if next.Continue? then t'.pauses == [] && t'.releases == []
            else |t'.pauses| <= 1 && t'.releases == if next.Stop? then t'.pauses else []
    ensures next.Stop? ==> won && |t'.pauses| == 1
  {
    hide Linked, Kept, Mine, SpecsStay, IsDrained, IsDraining;
    var raised;
    t' := t;
    raised, won := ClaimRow(db, c);
    if raised { next := Raised; return; }
    ThenTried(b, t, c.row.id, won);
    if !won {
      LostTheRace(t, batch, i);
      t' := Tried(t, c.row.id, false);
      next := Continue(false);
      return;
    }
    ghost var verdict, reason, read;
    next, verdict, reason, read := DrainRow(db, c);
    t' := DrainedAfter(b, Tried(t, c.row.id, true), db.BookOf(c.d), c.row.id, verdict, reason, next);
    TickGoesOn(t, batch, i, t', verdict, reason, next);
  }

  /** One tick, however others interleave: what it has done between the two states is on the database's
      record of the drainer, no row is left in its hands unaccounted for, and its return value is the
      number of rows it claimed less the one it gave back. */
  method RunTick(db: Database, d: nat) returns (processed: int, raised: bool, ghost tick: Book)
    requires db.Valid() && IsIdle(db.state, d)
    modifies db
    ensures db.Valid() && db.Continues(old(db.trace), old(db.state)) && IsIdle(db.state, d)
    ensures db.BookOf(d) == old(db.BookOf(d)).Then(tick) && IsTick(tick, processed, raised)
  {
    hide Linked, Kept, Mine, SpecsStay, IsDrained, IsDraining;
    ghost var b := db.BookOf(d);
    processed, raised := 0, false;
    var paused := Gate(db, d);
    tick := EMPTY_BOOK.(gates := [paused]);
    if paused { return; }
    var batch;
    raised, batch := Prefetch(db, d);
    if raised { return; }
    tick := tick.(polls := [batch]);
    NothingTried(batch);
    var i := 0;
    while i < |batch|
      invariant 0 <= i <= |batch| && db.Valid() && db.Continues(old(db.trace), old(db.state))
      invariant IsLooping(db.state, d, batch[i..], processed) && db.BookOf(d) == b.Then(tick)
      invariant IsDraining(tick) && tick.polls == [batch] && tick.tries == Ids(batch)[..i]
      invariant tick.pauses == [] && tick.releases == [] && processed == |tick.claims|
    {
      var c := Claim(d, batch[i], batch[i + 1..], processed + 1);
      assert batch[i..] == [batch[i]] + batch[i + 1..];
      var won, next;
      won, next, tick := TryRow(db, c, b, tick, batch, i);
      if won { processed := processed + 1; }
      if next.Raised? { raised := true; return; }
      if next.Stop? { processed := processed - 1; return; }
      i := i + 1;
    }
    db.Yield(Drainer(d));
    Take(db, d, Q.Go);
  }

  lemma NothingTried(batch: seq<Picked>)
    requires IsBatch(batch)
    ensures IsDraining(EMPTY_BOOK.(gates := [false], polls := [batch]))
  {
  }
}
