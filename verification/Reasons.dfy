/** Why a row is sent or failed: what the drainer read before it, over whole runs. */
module Reasons {
  import opened Actions
  import opened Timestamps
  import opened Tables
  import opened Queue
  import opened Ownership

  // ----- what a read may say -----

  /** The email is stored and not soft-deleted. */
  predicate IsThere(emails: map<string, Email>, email: string) { email in emails && !emails[email].deleted }

  /** The row names an email that is looked at: every such row but the inverse of a move, below Tier 3. */
  predicate IsLookedAt(s: Spec) { s.emailId.Some? && (s.tier == 3 || !IsRevertRow(s)) }

  predicate IsGone(emails: map<string, Email>, s: Spec) { IsLookedAt(s) && !IsThere(emails, s.emailId.value) }

  /** On Tier 3 the email has changed since the proposal: its marker is not the proposal's. */
  predicate HasDrifted(emails: map<string, Email>, s: Spec) {
    IsLookedAt(s) && IsThere(emails, s.emailId.value) && s.tier == 3 && emails[s.emailId.value].marker != s.marker
  }

  predicate IsFine(emails: map<string, Email>, s: Spec) { !IsGone(emails, s) && !HasDrifted(emails, s) }

  /** The read decides, and only the read. */
  lemma ReadDecides(q: Queue, grants: seq<Grant>, w: Drainer)
    requires w.Working? && w.stage.Vetting?
    ensures var y, s := WorkNext(q, grants, w, Go), w.job.spec;
            && y.Working? && y.job.id == w.job.id && y.job.spec == s
            && (IsGone(q.emails, s) <==> y.stage.Failing? && y.job.reason == "target_deleted")
            && (HasDrifted(q.emails, s) <==> y.stage.Failing? && y.job.reason == "state_drift_etag")
            && (IsFine(q.emails, s) <==> !y.stage.Failing?)
  {
  }

  // ----- what the other checks decide -----

  /** Some live grant, as of then, covers the row. */
  predicate IsCovered(grants: seq<Grant>, s: Spec, at: int) {
    && RequiresGrant(s.action)
    && exists i | 0 <= i < |grants| :: IsLive(grants[i], s.action, at) && Covers(grants[i], s.emailId)
  }

  /** By tier: 1 needs no grant, 2 and 3 look for one as of now, and there is no other. */
  lemma TierDecides(q: Queue, grants: seq<Grant>, w: Drainer)
    requires w.Working? && w.stage.Checking?
    ensures var y, tier := WorkNext(q, grants, w, Go), w.job.spec.tier;
            && y.Working?
            && (y.stage.Vetting? <==> tier == 1)
            && (y.stage.Scanning? <==> tier == 2 || tier == 3) && (y.stage.Scanning? ==> y.job.checkedAt == q.now)
            && (y.stage.Failing? && y.job.reason == "invalid_tier" <==> tier !in {1, 2, 3})
  {
  }

  /** With a grant the row goes on; without one a Tier-3 row that is older than half an hour fails, and any
      other waits. */
  lemma GrantDecides(q: Queue, grants: seq<Grant>, w: Drainer)
    requires w.Working? && w.stage.Scanning?
    ensures var y, s := WorkNext(q, grants, w, Go), w.job.spec;
            && y.Working?
            && (y.stage.Vetting? <==> IsCovered(grants, s, w.job.checkedAt))
            && (y.stage.Failing? && y.job.reason == "grant_expired_unauthorized" <==>
                  !IsCovered(grants, s, w.job.checkedAt) && s.tier == 3 && q.now - s.proposedAt > 30 * MINUTE)
            && (y.stage.Waiting? <==>
                  !IsCovered(grants, s, w.job.checkedAt) && (s.tier != 3 || q.now - s.proposedAt <= 30 * MINUTE))
  {
  }

  /** The twentieth send of the day is the last. */
  lemma CapDecides(q: Queue, grants: seq<Grant>, w: Drainer)
    requires w.Working? && w.stage.Counting?
    ensures var y := WorkNext(q, grants, w, Go);
            && y.Working?
            && (y.stage.Recording? <==> BudgetConsumed(q.rows, w.job.since) <= 19)
            && (y.stage.Failing? && y.job.reason == "daily_send_cap_exceeded" <==>
                  BudgetConsumed(q.rows, w.job.since) >= 20)
  {
  }

  /** A move goes on with the folder its message is in, or fails. */
  lemma CaptureDecides(q: Queue, grants: seq<Grant>, w: Drainer, c: Choice)
    requires w.Working? && w.stage.Capturing? && (c == Go || c == Fail)
    ensures var y, e := WorkNext(q, grants, w, c), w.job.spec.emailId;
            && y.Working?
            && (y.stage.Recording? <==> c == Go && e.Some? && e.value in q.mailbox && q.mailbox[e.value] != "")
            && (y.stage.Recording? ==> y.job.pre == Some(q.mailbox[e.value]))
            && (!y.stage.Recording? ==> y.stage.Failing? && y.job.reason == "pre_state_capture_failed")
  {
  }

  // ----- the states of a run -----

  /** A step of a run and the state it met. */
  datatype Past = Past(before: Queue, grants: seq<Grant>, event: Event)

  ghost function Pasts(q: Queue, ts: seq<Tick>): (ps: seq<Past>)
    requires Runs(q, ts)
    ensures |ps| == |ts|
    decreases |ts|
  {
    if ts == [] then []
    else [Past(q, ts[0].grants, ts[0].event)] + Pasts(Step(q, ts[0].grants, ts[0].event), ts[1..])
  }

  /** Drainer `d` has the row in hand when step `j` begins. */
  predicate HasInHand(p: Past, d: nat, id: nat) {
    d < |p.before.drainers| && p.before.drainers[d].Working? && p.before.drainers[d].job.id == id
  }

  /** It has had it in hand all the time between the two steps: it is the same claim. */
  predicate IsHeld(ps: seq<Past>, from: nat, to: nat, d: nat, id: nat) {
    to <= |ps| && forall j | from <= j < to :: HasInHand(ps[j], d, id)
  }

  /** The step is drainer `d`'s, for that row, at that stage. */
  predicate IsStepOf(p: Past, d: nat, id: nat, stage: Stage) {
    p.event.Drain? && p.event.d == d && HasInHand(p, d, id) && p.before.drainers[d].stage == stage
  }

  /** The step read the row's email and found nothing against it. */
  predicate ReadsFine(p: Past, d: nat, id: nat, s: Spec) {
    && IsStepOf(p, d, id, Vetting) && p.event.choice == Go && p.before.drainers[d].job.spec == s
    && IsFine(p.before.emails, s)
  }

  /** Up to now the drainer holds the row on a fine read. */
  ghost predicate IsVetted(ps: seq<Past>, d: nat, id: nat, s: Spec) {
    exists k | 0 <= k < |ps| :: ReadsFine(ps[k], d, id, s) && IsHeld(ps, k, |ps|, d, id)
  }

  predicate IsPastVetting(stage: Stage) {
    stage.Capping? || stage.Counting? || stage.Capturing? || stage.Recording? || stage.Dispatching?
  }

  // ----- what may fail a row -----

  /** The message is in a folder. */
  predicate HasFolder(mailbox: map<string, string>, s: Spec) {
    s.emailId.Some? && s.emailId.value in mailbox && mailbox[s.emailId.value] != ""
  }

  /** The step gave the row up for that reason, and the reason was so. */
  predicate Decides(p: Past, d: nat, id: nat, reason: string) {
    && p.event.Drain? && p.event.d == d && HasInHand(p, d, id)
    && var x := p.before.drainers[d];
       var s, c, q := x.job.spec, p.event.choice, p.before;
       || (reason == "invalid_tier" && x.stage.Checking? && c == Go && s.tier !in {1, 2, 3})
       || (reason == "grant_expired_unauthorized" && x.stage.Scanning? && c == Go && s.tier == 3 &&
           q.now - s.proposedAt > 30 * MINUTE && !IsCovered(p.grants, s, x.job.checkedAt))
       || (reason == "target_deleted" && x.stage.Vetting? && c == Go && IsGone(q.emails, s))
       || (reason == "state_drift_etag" && x.stage.Vetting? && c == Go && HasDrifted(q.emails, s))
       || (reason == "daily_send_cap_exceeded" && x.stage.Counting? && c == Go &&
           BudgetConsumed(q.rows, x.job.since) >= 20)
       || (reason == "pre_state_capture_failed" && x.stage.Capturing? &&
           (c == Fail || (c == Go && !HasFolder(q.mailbox, s))))
       || (reason == "provider_error" && x.stage.Dispatching? && (c == Fail || c == LostReply))
       || (reason == "drainer_internal_error" && c == Throw)
       || (reason == "drainer_internal_error:IntegrityError" && x.stage.Recording? && c == Go && id in q.history)
  }

  ghost predicate IsDecided(ps: seq<Past>, d: nat, id: nat, reason: string) {
    exists k | 0 <= k < |ps| :: Decides(ps[k], d, id, reason)
  }

  ghost predicate HasReason(ps: seq<Past>, id: nat, reason: string) {
    exists d: nat :: IsDecided(ps, d, id, reason)
  }

  // ----- what every step keeps -----

  ghost predicate JobOk(ps: seq<Past>, d: nat, x: Drainer) {
    x.Working? ==>
      && (IsPastVetting(x.stage) ==> IsVetted(ps, d, x.job.id, x.job.spec))
      && (x.stage.Failing? || x.stage.Recovering? ==> IsDecided(ps, d, x.job.id, x.job.reason))
  }

  ghost predicate RowOk(ps: seq<Past>, id: nat, r: Row) {
    r.status.Failed? ==> HasReason(ps, id, r.reason)
  }

  /** Dispatch number `i` was made by step `n`, on the fine read of step `k`, in the same claim. */
  predicate IsSentOnRead(ps: seq<Past>, i: nat, s: Dispatch, k: nat, n: nat) {
    && k < n < |ps|
    && IsStepOf(ps[n], s.drainer, s.id, Dispatching) && |ps[n].before.dispatches| == i
    && ps[n].before.drainers[s.drainer].job.spec == s.spec
    && ReadsFine(ps[k], s.drainer, s.id, s.spec) && IsHeld(ps, k, n + 1, s.drainer, s.id)
  }

  ghost predicate SentOk(ps: seq<Past>, i: nat, s: Dispatch) {
    exists k: nat, n: nat :: IsSentOnRead(ps, i, s, k, n)
  }

  ghost predicate Explained(q: Queue, ps: seq<Past>) {
    && (forall d | 0 <= d < |q.drainers| :: JobOk(ps, d, q.drainers[d]))
    && (forall id | 0 <= id < |q.rows| :: RowOk(ps, id, q.rows[id]))
    && (forall i | 0 <= i < |q.dispatches| :: SentOk(ps, i, q.dispatches[i]))
  }

  lemma DecisionStays(ps: seq<Past>, p: Past, d: nat, id: nat, reason: string)
    requires IsDecided(ps, d, id, reason) || Decides(p, d, id, reason)
    ensures IsDecided(ps + [p], d, id, reason)
  {
    hide Decides;
    if IsDecided(ps, d, id, reason) {
      var k :| 0 <= k < |ps| && Decides(ps[k], d, id, reason);
      assert Decides((ps + [p])[k], d, id, reason);
    } else {
      assert Decides((ps + [p])[|ps|], d, id, reason);
    }
  }

  lemma VettedStays(ps: seq<Past>, p: Past, d: nat, id: nat, s: Spec)
    requires HasInHand(p, d, id) && (IsVetted(ps, d, id, s) || ReadsFine(p, d, id, s))
    ensures IsVetted(ps + [p], d, id, s)
  {
    hide ReadsFine, HasInHand;
    var qs := ps + [p];
    if IsVetted(ps, d, id, s) {
      var k :| 0 <= k < |ps| && ReadsFine(ps[k], d, id, s) && IsHeld(ps, k, |ps|, d, id);
      assert ReadsFine(qs[k], d, id, s);
      assert IsHeld(qs, k, |qs|, d, id);
    } else {
      assert ReadsFine(qs[|ps|], d, id, s) && IsHeld(qs, |ps|, |qs|, d, id);
    }
  }

  lemma SentStays(ps: seq<Past>, p: Past, i: nat, s: Dispatch)
    requires SentOk(ps, i, s)
    ensures SentOk(ps + [p], i, s)
  {
    hide ReadsFine, IsStepOf, HasInHand;
    var k: nat, n: nat :| IsSentOnRead(ps, i, s, k, n);
    assert IsSentOnRead(ps + [p], i, s, k, n);
  }

  /** Graph's refusal, a lost reply, an exception and a second history row. */
  lemma TroubleDecides(q: Queue, grants: seq<Grant>, w: Drainer, c: Choice)
    requires w.Working? && CanWork(q, w, c)
    ensures var y := WorkNext(q, grants, w, c);
            && (w.stage.Dispatching? && y.Working? && y.stage.Failing? ==>
                  y.job.reason == "provider_error" && (c == Fail || c == LostReply))
            && (c == Throw ==> y.Working? && y.stage.Recovering? && y.job.reason == "drainer_internal_error")
            && (c == Go && y.Working? && y.stage.Recovering? ==>
                  w.stage.Recording? && w.job.id in q.history &&
                  y.job.reason == "drainer_internal_error:IntegrityError")
  {
    hide FindGrant, BudgetConsumed, VetFailure, IsRevertRow, CanAccept;
  }

  /** What each check decides, for a step that ends in giving the row up. */
  lemma CheckDecides(q: Queue, grants: seq<Grant>, w: Drainer, d: nat, c: Choice)
    requires d < |q.drainers| && q.drainers[d] == w && w.Working? && WorkNext(q, grants, w, c).Working?
    requires WorkNext(q, grants, w, c).stage.Failing? && (c == Go || (w.stage.Capturing? && c == Fail))
    requires w.stage.Checking? || w.stage.Scanning? || w.stage.Vetting? || w.stage.Counting? || w.stage.Capturing?
    ensures Decides(Past(q, grants, Drain(d, c)), d, w.job.id, WorkNext(q, grants, w, c).job.reason)
  {
    hide WorkNext, IsCovered, IsGone, HasDrifted, IsFine, BudgetConsumed;
    if w.stage.Checking? { TierDecides(q, grants, w); }
    if w.stage.Scanning? { GrantDecides(q, grants, w); }
    if w.stage.Vetting? {
      ReadDecides(q, grants, w);
      FineOrNot(q.emails, w.job.spec);
    }
    if w.stage.Counting? { CapDecides(q, grants, w); }
    if w.stage.Capturing? { CaptureDecides(q, grants, w, c); }
  }

  lemma FineOrNot(emails: map<string, Email>, s: Spec)
    ensures IsFine(emails, s) || IsGone(emails, s) || HasDrifted(emails, s)
  {
  }

  /** A drainer that gives its row up has the reason before it. */
  lemma GivesUpFor(q: Queue, grants: seq<Grant>, d: nat, c: Choice)
    requires CanDrain(q, d, c) && q.drainers[d].Working?
    ensures var x, y := q.drainers[d], DrainNext(q, grants, q.drainers[d], c);
            y.Working? && (y.stage.Failing? || y.stage.Recovering?) ==>
              Decides(Past(q, grants, Drain(d, c)), d, x.job.id, y.job.reason)
  {
    var x, y := q.drainers[d], WorkNext(q, grants, q.drainers[d], c);
    WorkEdge(q, grants, x, c);
    TroubleDecides(q, grants, x, c);
    hide WorkNext, CanWork, IsCovered, IsGone, HasDrifted, BudgetConsumed, FindGrant, IsRevertRow, Guarded;
    if y.Working? && y.stage.Failing? && !x.stage.Dispatching? { CheckDecides(q, grants, x, d, c); }
  }

  /** A drainer past the vetting comes from there, or has been past it. */
  lemma GoesOnWith(q: Queue, grants: seq<Grant>, d: nat, c: Choice)
    requires CanDrain(q, d, c) && q.drainers[d].Working?
    ensures var x, y := q.drainers[d], DrainNext(q, grants, q.drainers[d], c);
            y.Working? && IsPastVetting(y.stage) ==>
              && y.job.id == x.job.id && y.job.spec == x.job.spec
              && (IsPastVetting(x.stage) || ReadsFine(Past(q, grants, Drain(d, c)), d, x.job.id, x.job.spec))
  {
    var x := q.drainers[d];
    WorkEdge(q, grants, x, c);
    if x.stage.Vetting? { ReadDecides(q, grants, x); }
    hide WorkNext, CanWork, IsFine, BudgetConsumed, FindGrant, IsRevertRow, Guarded;
  }

  lemma StartsClean(q: Queue, grants: seq<Grant>, d: nat, c: Choice)
    requires CanDrain(q, d, c) && !q.drainers[d].Working?
    ensures var y := DrainNext(q, grants, q.drainers[d], c); y.Working? ==> y.stage.Claimed?
  {
  }

  lemma DrainerKept(q: Queue, grants: seq<Grant>, d: nat, c: Choice, ps: seq<Past>)
    requires CanDrain(q, d, c) && JobOk(ps, d, q.drainers[d])
    ensures JobOk(ps + [Past(q, grants, Drain(d, c))], d, DrainNext(q, grants, q.drainers[d], c))
  {
    var x, p := q.drainers[d], Past(q, grants, Drain(d, c));
    var y := DrainNext(q, grants, x, c);
    if !x.Working? {
      StartsClean(q, grants, d, c);
    } else if y.Working? {
      GivesUpFor(q, grants, d, c);
      GoesOnWith(q, grants, d, c);
      hide DrainNext, CanTake, Decides, ReadsFine, IsDecided, IsVetted;
      if y.stage.Failing? || y.stage.Recovering? {
        SameRow(q, grants, x, c);
        DecisionStays(ps, p, d, x.job.id, y.job.reason);
      }
      if IsPastVetting(y.stage) { VettedStays(ps, p, d, x.job.id, x.job.spec); }
    }
  }

  lemma SameRow(q: Queue, grants: seq<Grant>, x: Drainer, c: Choice)
    requires CanTake(q, x, c) && x.Working?
    ensures var y := DrainNext(q, grants, x, c); y.Working? ==> y.job.id == x.job.id && y.job.spec == x.job.spec
  {
    DrainFollows(q, grants, x, c);
    hide DrainNext, CanTake, FindGrant, BudgetConsumed, IsRevertRow;
  }

  lemma IdleKept(ps: seq<Past>, p: Past, d: nat, x: Drainer)
    requires JobOk(ps, d, x) && d < |p.before.drainers| && p.before.drainers[d] == x
    ensures JobOk(ps + [p], d, x)
  {
    hide IsDecided, IsVetted, Decides, ReadsFine;
    if x.Working? {
      if IsPastVetting(x.stage) { VettedStays(ps, p, d, x.job.id, x.job.spec); }
      if x.stage.Failing? || x.stage.Recovering? { DecisionStays(ps, p, d, x.job.id, x.job.reason); }
    }
  }

  /** Only a drainer fails a row, with the reason it carries. */
  lemma FailsWith(q: Queue, grants: seq<Grant>, e: Event, id: nat)
    requires Enabled(q, e) && id < |Step(q, grants, e).rows| && Step(q, grants, e).rows[id].status.Failed?
    ensures var r := Step(q, grants, e).rows[id];
            || (id < |q.rows| && q.rows[id].status.Failed? && q.rows[id].reason == r.reason)
            || (e.Drain? && q.drainers[e.d].Working? && q.drainers[e.d].job.id == id &&
                (q.drainers[e.d].stage.Failing? || q.drainers[e.d].stage.Recovering?) &&
                q.drainers[e.d].job.reason == r.reason)
  {
    hide CallNext, DrainNext, CanTake, Records, Sends, Moves, Lapses, Clears, IsProposal;
  }

  lemma RowKept(q: Queue, grants: seq<Grant>, e: Event, ps: seq<Past>, id: nat)
    requires Enabled(q, e) && Explained(q, ps) && id < |Step(q, grants, e).rows|
    ensures RowOk(ps + [Past(q, grants, e)], id, Step(q, grants, e).rows[id])
  {
    var r, p := Step(q, grants, e).rows[id], Past(q, grants, e);
    if r.status.Failed? {
      FailsWith(q, grants, e, id);
      hide Step, Enabled, Decides, IsDecided;
      if id < |q.rows| && q.rows[id].status.Failed? && q.rows[id].reason == r.reason {
        assert RowOk(ps, id, q.rows[id]);
        var d: nat :| IsDecided(ps, d, id, r.reason);
        DecisionStays(ps, p, d, id, r.reason);
      } else {
        assert JobOk(ps, e.d, q.drainers[e.d]);
        DecisionStays(ps, p, e.d, id, r.reason);
      }
    }
  }

  lemma DispatchesGrow(q: Queue, grants: seq<Grant>, e: Event)
    requires Enabled(q, e)
    ensures var t := Step(q, grants, e);
            if e.Drain? && Sends(q.drainers[e.d], e.choice)
            then t.dispatches == q.dispatches + [DispatchOf(q, q.drainers[e.d], e.d)] else t.dispatches == q.dispatches
  {
    hide CallNext, DrainNext, CanTake, RowsAfter, Records, Moves, Lapses, Clears;
  }

  lemma SendIsOnRead(q: Queue, grants: seq<Grant>, d: nat, c: Choice, ps: seq<Past>)
    requires CanDrain(q, d, c) && JobOk(ps, d, q.drainers[d]) && Sends(q.drainers[d], c)
    ensures SentOk(ps + [Past(q, grants, Drain(d, c))], |q.dispatches|, DispatchOf(q, q.drainers[d], d))
  {
    hide CanTake, ReadsFine;
    var x, s := q.drainers[d], DispatchOf(q, q.drainers[d], d);
    var qs := ps + [Past(q, grants, Drain(d, c))];
    var k :| 0 <= k < |ps| && ReadsFine(ps[k], d, x.job.id, x.job.spec) && IsHeld(ps, k, |ps|, d, x.job.id);
    assert ReadsFine(qs[k], d, x.job.id, x.job.spec) && IsHeld(qs, k, |ps| + 1, d, x.job.id);
    assert IsSentOnRead(qs, |q.dispatches|, s, k, |ps|);
  }

  lemma SentKept(q: Queue, grants: seq<Grant>, e: Event, ps: seq<Past>, i: nat)
    requires Enabled(q, e) && Explained(q, ps) && i < |Step(q, grants, e).dispatches|
    ensures SentOk(ps + [Past(q, grants, e)], i, Step(q, grants, e).dispatches[i])
  {
    DispatchesGrow(q, grants, e);
    hide Step, SentOk, JobOk, RowOk, CanTake;
    if i < |q.dispatches| {
      SentStays(ps, Past(q, grants, e), i, q.dispatches[i]);
    } else {
      SendIsOnRead(q, grants, e.d, e.choice, ps);
    }
  }

  lemma DrainersFrame(q: Queue, grants: seq<Grant>, e: Event)
    requires Enabled(q, e)
    ensures var t := Step(q, grants, e);
            && |t.drainers| == |q.drainers|
            && forall d | 0 <= d < |q.drainers| ::
                 t.drainers[d] ==
                 if e.Drain? && d == e.d then DrainNext(q, grants, q.drainers[d], e.choice) else q.drainers[d]
  {
    hide CallNext, DrainNext, CanTake, RowsAfter, Records, Moves, Lapses, Clears;
  }

  lemma StepIsExplained(q: Queue, grants: seq<Grant>, e: Event, ps: seq<Past>)
    requires Enabled(q, e) && Explained(q, ps)
    ensures Explained(Step(q, grants, e), ps + [Past(q, grants, e)])
  {
    var t, p := Step(q, grants, e), Past(q, grants, e);
    DrainersFrame(q, grants, e);
    hide Step, DrainNext, CanTake, JobOk, RowOk, SentOk;
    forall d | 0 <= d < |t.drainers| ensures JobOk(ps + [p], d, t.drainers[d]) {
      if e.Drain? && d == e.d { DrainerKept(q, grants, d, e.choice, ps); } else { IdleKept(ps, p, d, q.drainers[d]); }
    }
    forall id | 0 <= id < |t.rows| ensures RowOk(ps + [p], id, t.rows[id]) { RowKept(q, grants, e, ps, id); }
    forall i | 0 <= i < |t.dispatches| ensures SentOk(ps + [p], i, t.dispatches[i]) { SentKept(q, grants, e, ps, i); }
  }

  lemma {:induction false} RunIsExplained(q: Queue, ts: seq<Tick>, ps: seq<Past>)
    requires Runs(q, ts) && Explained(q, ps)
    ensures Explained(After(q, ts), ps + Pasts(q, ts))
    decreases |ts|
  {
    hide Step, Enabled, Explained;
    if ts == [] {
      assert ps + [] == ps;
    } else {
      var p, rest := Past(q, ts[0].grants, ts[0].event), Step(q, ts[0].grants, ts[0].event);
      StepIsExplained(q, ts[0].grants, ts[0].event, ps);
      RunIsExplained(rest, ts[1..], ps + [p]);
      assert ps + [p] + Pasts(rest, ts[1..]) == ps + ([p] + Pasts(rest, ts[1..]));
    }
  }

  /** No drainer at work, nothing sent, and no row failed yet. */
  predicate IsUnexplained(q: Queue) {
    && q.dispatches == [] && (forall d | 0 <= d < |q.drainers| :: !q.drainers[d].Working?)
    && forall id | 0 <= id < |q.rows| :: !q.rows[id].status.Failed?
  }

  // ----- the theorems -----

  /** Every adapter call follows a read of its email in the same claim, which found the email stored, not
      deleted, and on Tier 3 with the marker of its proposal; the inverse of a move and a row without an
      email are not looked at. */
  lemma SentOnlyOnAFineRead(q: Queue, ts: seq<Tick>, i: nat)
    requires Runs(q, ts) && IsUnexplained(q) && i < |After(q, ts).dispatches|
    ensures var s := After(q, ts).dispatches[i];
            exists k: nat, n: nat :: IsSentOnRead(Pasts(q, ts), i, s, k, n)
  {
    RunIsExplained(q, ts, []);
    assert [] + Pasts(q, ts) == Pasts(q, ts);
    assert SentOk(Pasts(q, ts), i, After(q, ts).dispatches[i]);
  }

  /** Every failed row bears a reason that some step of the run gave it up for, and that held there. */
  lemma FailedOnlyForItsReason(q: Queue, ts: seq<Tick>, id: nat)
    requires Runs(q, ts) && IsUnexplained(q) && id < |After(q, ts).rows| && After(q, ts).rows[id].status.Failed?
    ensures exists d: nat, k: nat :: k < |ts| && Decides(Pasts(q, ts)[k], d, id, After(q, ts).rows[id].reason)
  {
    RunIsExplained(q, ts, []);
    assert [] + Pasts(q, ts) == Pasts(q, ts);
    hide Decides;
    var reason := After(q, ts).rows[id].reason;
    assert RowOk(Pasts(q, ts), id, After(q, ts).rows[id]);
    var d: nat :| IsDecided(Pasts(q, ts), d, id, reason);
    var k :| 0 <= k < |ts| && Decides(Pasts(q, ts)[k], d, id, reason);
  }

  /** The states of the steps are those of the run. */
  lemma {:induction false} PastsAreTheRun(q: Queue, ts: seq<Tick>, k: nat)
    requires Runs(q, ts) && k < |ts|
    ensures Runs(q, ts[..k]) && Pasts(q, ts)[k] == Past(After(q, ts[..k]), ts[k].grants, ts[k].event)
    ensures Enabled(After(q, ts[..k]), ts[k].event)
    decreases |ts|
  {
    hide Step, Enabled;
    if k == 0 {
      assert ts[..0] == [];
    } else {
      assert ts[..k][0] == ts[0] && ts[..k][1..] == ts[1..][..k - 1];
      PastsAreTheRun(Step(q, ts[0].grants, ts[0].event), ts[1..], k - 1);
    }
  }
}
