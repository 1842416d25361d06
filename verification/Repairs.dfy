/** The local half of a revert: the email that the original move soft-deleted is made visible again,
    in a second write after the inverse row is marked applied. */
module Repairs {
  import opened Actions
  import opened Tables
  import opened Queue
  import opened Ownership
  import opened Dispatches
  import opened Reverts
  import opened RoundTrip

  // ----- the flag is what the last mark says -----

  predicate IsDeleted(emails: map<string, Email>, m: string) { m in emails && emails[m].deleted }

  function Flagged(start: map<string, Email>, marks: seq<Mark>, m: string): bool {
    if marks == [] then IsDeleted(start, m)
    else if marks[|marks| - 1].email == m then marks[|marks| - 1].deleted
    else Flagged(start, marks[..|marks| - 1], m)
  }

  lemma FlaggedAppend(start: map<string, Email>, marks: seq<Mark>, v: Mark, m: string)
    ensures Flagged(start, marks + [v], m) == if v.email == m then v.deleted else Flagged(start, marks, m)
  {
    assert (marks + [v])[..|marks|] == marks;
  }

  /** An email stays visible until something deletes it again. */
  lemma {:induction false} StaysVisible(start: map<string, Email>, marks: seq<Mark>, k: nat, m: string)
    requires k < |marks| && marks[k].email == m && !marks[k].deleted
    requires forall j | k < j < |marks| && marks[j].email == m :: !marks[j].deleted
    ensures !Flagged(start, marks, m)
  {
    if k < |marks| - 1 && marks[|marks| - 1].email != m { StaysVisible(start, marks[..|marks| - 1], k, m); }
  }

  /** Only sync and a finished repair touch the flag. */
  lemma MarkFrame(q: Queue, grants: seq<Grant>, e: Event)
    requires Enabled(q, e)
    ensures var t := Step(q, grants, e);
            if e.SyncRemove? && e.email in q.emails then
              && t.marks == q.marks + [Mark(e.email, true, None)]
              && forall m :: IsDeleted(t.emails, m) == (m == e.email || IsDeleted(q.emails, m))
            else if e.Drain? && Completes(q.drainers[e.d], e.choice, Repairing) &&
                    q.drainers[e.d].job.spec.emailId.Some? then
              var x := q.drainers[e.d];
              && t.marks == q.marks + [Mark(x.job.spec.emailId.value, false, Some(x.job.id))]
              && forall m :: IsDeleted(t.emails, m) == (m != x.job.spec.emailId.value && IsDeleted(q.emails, m))
            else t.marks == q.marks && forall m :: IsDeleted(t.emails, m) == IsDeleted(q.emails, m)
  {
    hide RowsAfter, DrainNext, CanTake, Records, Sends, Moves, Lapses, Clears, WasApplied;
    hide CallNext, HistoryAfterCall, RowsAfterCall, RowsAfterEvent;
  }

  lemma StepKeepsFlag(start: map<string, Email>, q: Queue, grants: seq<Grant>, e: Event, m: string)
    requires Enabled(q, e) && IsDeleted(q.emails, m) == Flagged(start, q.marks, m)
    ensures IsDeleted(Step(q, grants, e).emails, m) == Flagged(start, Step(q, grants, e).marks, m)
  {
    MarkFrame(q, grants, e);
    hide Step;
    if e.SyncRemove? && e.email in q.emails {
      FlaggedAppend(start, q.marks, Mark(e.email, true, None), m);
    } else if e.Drain? && Completes(q.drainers[e.d], e.choice, Repairing) &&
              q.drainers[e.d].job.spec.emailId.Some? {
      var x := q.drainers[e.d];
      FlaggedAppend(start, q.marks, Mark(x.job.spec.emailId.value, false, Some(x.job.id)), m);
    }
  }

  // ----- one passage per row -----

  predicate NeedsRepair(s: Spec) { IsRevertRow(s) && s.emailId.Some? }

  predicate AtRepair(x: Drainer, r: nat) { x.Working? && x.stage.Repairing? && x.job.id == r }

  /** Between the history insert and the end of the repair. */
  predicate Underway(x: Drainer, r: nat) {
    x.Working? && x.job.id == r &&
    (x.stage.Dispatching? || x.stage.Stamping? || x.stage.Marking? || x.stage.Repairing?)
  }

  /** The soft-delete was cleared for row `r`. */
  predicate IsMended(marks: seq<Mark>, r: nat) { exists k | 0 <= k < |marks| :: marks[k].cause == Some(r) }

  predicate MarkOk(rows: seq<Row>, v: Mark) {
    v.cause.Some? ==> v.cause.value < |rows| && !v.deleted && rows[v.cause.value].spec.emailId == Some(v.email)
  }

  /** The worker dies before it clears the soft-delete, or fails to. */
  predicate Abandons(q: Queue, e: Event, r: nat)
    requires Enabled(q, e)
  {
    e.Drain? && AtRepair(q.drainers[e.d], r) && (e.choice == Crash || e.choice == Throw)
  }

  predicate Mends(q: Queue, e: Event, r: nat)
    requires Enabled(q, e)
  {
    e.Drain? && Completes(q.drainers[e.d], e.choice, Repairing) && q.drainers[e.d].job.id == r &&
    q.drainers[e.d].job.spec.emailId.Some?
  }

  lemma MendedNext(q: Queue, grants: seq<Grant>, e: Event, r: nat)
    requires Enabled(q, e)
    ensures IsMended(Step(q, grants, e).marks, r) <==> IsMended(q.marks, r) || Mends(q, e, r)
  {
    MarkFrame(q, grants, e);
    hide Step;
    var t := Step(q, grants, e);
    assert forall k | 0 <= k < |q.marks| :: t.marks[k] == q.marks[k];
    if Mends(q, e, r) { assert t.marks[|q.marks|].cause == Some(r); }
  }

  lemma StepKeepsMarks(q: Queue, grants: seq<Grant>, e: Event, k: nat)
    requires Enabled(q, e) && Known(q) && k < |Step(q, grants, e).marks|
    requires k < |q.marks| ==> MarkOk(q.rows, q.marks[k])
    ensures MarkOk(Step(q, grants, e).rows, Step(q, grants, e).marks[k])
  {
    MarkFrame(q, grants, e);
    SpecsFrame(q, grants, e);
    hide Step;
    if e.Drain? { assert Ready(q.rows, q.drainers[e.d]); }
  }

  // ----- a row gets under way once -----

  /** A drainer gets under way only by the row's one history insert. */
  lemma UnderwayNext(q: Queue, grants: seq<Grant>, x: Drainer, c: Choice, y: Drainer, r: nat)
    requires Follows(q, grants, x, c, y)
    ensures Underway(y, r) && !Underway(x, r) ==> Records(q, x, c) && x.job.id == r && r !in q.history
    ensures AtRepair(x, r) && (c == Go || c == Crash || c == Throw) ==> !Underway(y, r)
  {
  }

  lemma HistoryGrows(q: Queue, grants: seq<Grant>, e: Event)
    requires Enabled(q, e)
    ensures q.history.Keys <= Step(q, grants, e).history.Keys
    ensures e.Drain? && Records(q, q.drainers[e.d], e.choice) ==>
              q.drainers[e.d].job.id in Step(q, grants, e).history
  {
  }

  /** Only one drainer ever gets under way with `r`; `gone` is whether it abandoned the repair. */
  ghost predicate OnePassage(q: Queue, r: nat, gone: bool) {
    && (forall d | 0 <= d < |q.drainers| ::
          Underway(q.drainers[d], r) ==> r in q.history && !gone && !IsMended(q.marks, r))
    && (forall d, e | 0 <= d < |q.drainers| && 0 <= e < |q.drainers| && d != e ::
          !(Underway(q.drainers[d], r) && Underway(q.drainers[e], r)))
    && (gone || IsMended(q.marks, r) ==> r in q.history) && !(gone && IsMended(q.marks, r))
  }

  lemma StepKeepsPassage(q: Queue, grants: seq<Grant>, e: Event, r: nat, gone: bool)
    requires Enabled(q, e) && OnePassage(q, r, gone)
    ensures OnePassage(Step(q, grants, e), r, gone || Abandons(q, e, r))
  {
    hide Step, IsMended, CanTake, Follows, Records;
    MendedNext(q, grants, e, r);
    HistoryGrows(q, grants, e);
    OthersKeepDrainers(q, grants, e);
    if e.Drain? { DrainerUnderway(q, grants, e.d, e.choice, r); }
  }

  lemma DrainerUnderway(q: Queue, grants: seq<Grant>, d: nat, c: Choice, r: nat)
    requires CanDrain(q, d, c)
    ensures var x, y := q.drainers[d], Step(q, grants, Drain(d, c)).drainers[d];
            && (Underway(y, r) && !Underway(x, r) ==> Records(q, x, c) && x.job.id == r && r !in q.history)
            && (AtRepair(x, r) && (c == Go || c == Crash || c == Throw) ==> !Underway(y, r))
  {
    DrainFollows(q, grants, q.drainers[d], c);
    UnderwayNext(q, grants, q.drainers[d], c, DrainNext(q, grants, q.drainers[d], c), r);
  }

  // ----- an applied revert is repaired, being repaired, or abandoned -----

  /** What has become of row `r`. */
  ghost predicate Accounted(start: Queue, q: Queue, r: nat, gone: bool) {
    IsApplied(q.rows, r) && NeedsRepair(q.rows[r].spec) ==>
      AppliedAtStart(start, r) || IsMended(q.marks, r) || gone || SomebodyAtRepair(q, r)
  }

  ghost predicate SomebodyAtRepair(q: Queue, r: nat) {
    exists d | 0 <= d < |q.drainers| :: AtRepair(q.drainers[d], r)
  }

  lemma MarkingNext(q: Queue, grants: seq<Grant>, x: Drainer, c: Choice)
    requires CanTake(q, x, c)
    ensures Completes(x, c, Marking) && NeedsRepair(x.job.spec) ==> AtRepair(DrainNext(q, grants, x, c), x.job.id)
  {
  }

  lemma RepairNext(q: Queue, grants: seq<Grant>, x: Drainer, c: Choice, r: nat)
    requires CanTake(q, x, c) && AtRepair(x, r)
    ensures c == Go || c == Crash || c == Throw
  {
  }

  /** Where an applied row can come from. */
  lemma AppliedNext(q: Queue, grants: seq<Grant>, e: Event, r: nat)
    requires Enabled(q, e) && Known(q) && IsApplied(Step(q, grants, e).rows, r)
    ensures r < |q.rows| && Step(q, grants, e).rows[r].spec == q.rows[r].spec
    ensures IsApplied(q.rows, r) ||
            (e.Drain? && Completes(q.drainers[e.d], e.choice, Marking) && q.drainers[e.d].job.id == r &&
             q.drainers[e.d].job.spec == q.rows[r].spec)
  {
    SpecsFrame(q, grants, e);
    if e.Drain? {
      assert Ready(q.rows, q.drainers[e.d]);
      OnlyMarkingApplies(q.rows, q.drainers[e.d], e.choice, r);
    } else {
      OthersNeverApply(q, grants, e);
    }
  }

  lemma StepKeepsAccounted(start: Queue, q: Queue, grants: seq<Grant>, e: Event, r: nat, gone: bool)
    requires Enabled(q, e) && Known(q) && Accounted(start, q, r, gone)
    ensures Accounted(start, Step(q, grants, e), r, gone || Abandons(q, e, r))
  {
    var t := Step(q, grants, e);
    if IsApplied(t.rows, r) && NeedsRepair(t.rows[r].spec) {
      AppliedNext(q, grants, e, r);
      MendedNext(q, grants, e, r);
      OthersKeepDrainers(q, grants, e);
      if e.Drain? { MarkingNext(q, grants, q.drainers[e.d], e.choice); }
      if SomebodyAtRepair(q, r) {
        var d :| 0 <= d < |q.drainers| && AtRepair(q.drainers[d], r);
        if e.Drain? && d == e.d {
          StillKnows(q, d, r);
          RepairNext(q, grants, q.drainers[d], e.choice, r);
        } else {
          assert AtRepair(t.drainers[d], r);
        }
      } else if e.Drain? && Completes(q.drainers[e.d], e.choice, Marking) && q.drainers[e.d].job.id == r {
        StillKnows(q, e.d, r);
        assert AtRepair(t.drainers[e.d], r);
      }
    }
  }

  lemma StillKnows(q: Queue, d: nat, r: nat)
    requires Known(q) && d < |q.drainers| && q.drainers[d].Working? && q.drainers[d].job.id == r
    ensures r < |q.rows| && q.rows[r].spec == q.drainers[d].job.spec
  {
    assert Ready(q.rows, q.drainers[d]);
  }

  // ----- whole runs -----

  /** At some point of the run the repair of `r` is abandoned. */
  ghost predicate Abandoned(q: Queue, ts: seq<Tick>, r: nat)
    requires Runs(q, ts)
    decreases |ts|
  {
    ts != [] && (Abandons(q, ts[0].event, r) || Abandoned(Step(q, ts[0].grants, ts[0].event), ts[1..], r))
  }

  ghost predicate Followed(start: Queue, q: Queue, r: nat, gone: bool) {
    && OnePassage(q, r, gone) && Accounted(start, q, r, gone)
    && (forall m :: IsDeleted(q.emails, m) == Flagged(start.emails, q.marks, m))
    && (forall k | 0 <= k < |q.marks| :: MarkOk(q.rows, q.marks[k]))
  }

  lemma StepKeepsFollowed(start: Queue, q: Queue, grants: seq<Grant>, e: Event, r: nat, gone: bool)
    requires Enabled(q, e) && Known(q) && Followed(start, q, r, gone)
    ensures Followed(start, Step(q, grants, e), r, gone || Abandons(q, e, r))
  {
    hide Step, Enabled, OnePassage, Accounted;
    var t := Step(q, grants, e);
    StepKeepsPassage(q, grants, e, r, gone);
    StepKeepsAccounted(start, q, grants, e, r, gone);
    forall m ensures IsDeleted(t.emails, m) == Flagged(start.emails, t.marks, m) {
      StepKeepsFlag(start.emails, q, grants, e, m);
    }
    forall k | 0 <= k < |t.marks| ensures MarkOk(t.rows, t.marks[k]) { StepKeepsMarks(q, grants, e, k); }
  }

  lemma {:induction false} RunKeepsFollowed(start: Queue, q: Queue, ts: seq<Tick>, r: nat, gone: bool)
    requires Runs(q, ts) && Known(q) && Followed(start, q, r, gone)
    ensures Followed(start, After(q, ts), r, gone || Abandoned(q, ts, r))
    decreases |ts|
  {
    hide Step, Enabled, Followed;
    if ts != [] {
      StepKeepsKnown(q, ts[0].grants, ts[0].event);
      StepKeepsFollowed(start, q, ts[0].grants, ts[0].event, r, gone);
      RunKeepsFollowed(start, Step(q, ts[0].grants, ts[0].event), ts[1..], r, gone || Abandons(q, ts[0].event, r));
    }
  }

  lemma FreshIsFollowed(q: Queue, r: nat)
    requires Fresh(q)
    ensures Known(q) && Followed(q, q, r, false)
  {
  }

  /** The email of row `r` is not deleted any more, unless something deleted it after the repair. */
  ghost predicate IsVisible(t: Queue, r: nat)
    requires r < |t.rows|
  {
    exists k | 0 <= k < |t.marks| ::
      && t.marks[k].cause == Some(r) && t.rows[r].spec.emailId == Some(t.marks[k].email)
      && ((forall j | k < j < |t.marks| && t.marks[j].email == t.marks[k].email :: !t.marks[j].deleted) ==>
            !IsDeleted(t.emails, t.marks[k].email))
  }

  /** When the drainer of an applied inverse row is done with it, the row's email has been made visible
      again, exactly if no crash and no exception came between the two writes. */
  lemma RevertClearsSoftDelete(q: Queue, ts: seq<Tick>, r: nat)
    requires Runs(q, ts) && Fresh(q) && !AppliedAtStart(q, r)
    requires IsApplied(After(q, ts).rows, r) && NeedsRepair(After(q, ts).rows[r].spec)
    requires !SomebodyAtRepair(After(q, ts), r)
    ensures IsMended(After(q, ts).marks, r) <==> !Abandoned(q, ts, r)
    ensures IsVisible(After(q, ts), r) <==> !Abandoned(q, ts, r)
  {
    FreshIsFollowed(q, r);
    RunKeepsFollowed(q, q, ts, r, false);
    var t := After(q, ts);
    if IsMended(t.marks, r) {
      var k :| 0 <= k < |t.marks| && t.marks[k].cause == Some(r);
      assert MarkOk(t.rows, t.marks[k]);
      var m := t.marks[k].email;
      if forall j | k < j < |t.marks| && t.marks[j].email == m :: !t.marks[j].deleted {
        StaysVisible(q.emails, t.marks, k, m);
      }
    }
  }
}
