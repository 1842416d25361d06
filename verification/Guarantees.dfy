/** The guarantees together, for whole runs of the whole system from an empty database. */
module Guarantees {
  import opened Actions
  import S = System
  import A = Approvals
  import Q = Queue
  import O = Ownership
  import D = Dispatches
  import C = CoolingOff
  import Cap = SendCap
  import P = Pause
  import R = Reverts
  import T = RoundTrip
  import Rep = Repairs
  import Ask = SendCalls
  import Why = Reasons
  import W = Waiting

  lemma EmptyIsSound(q: Q.Queue, window: nat, exact: bool)
    requires T.Fresh(q) && q.rows == [] && q.history == map[] && 0 <= q.now
    ensures O.Known(q) && O.Undisputed(q) && O.AllHeld(q) && D.Once(q) && R.Provenance(q)
    ensures C.Cooling(q, window, exact) && Cap.Capped(q) && Cap.Lasting(q)
    ensures forall d | 0 <= d < |q.drainers| :: Cap.Meek(q.rows, q.drainers[d]) && Cap.Mild(q.drainers[d])
  {
    forall day | Cap.IsMidnight(day) ensures Cap.UnderCap(q, day) { NobodyFlies(q.drainers, day); }
  }

  lemma {:induction false} NobodyFlies(xs: seq<Q.Drainer>, day: int)
    requires forall d | 0 <= d < |xs| :: xs[d].Idle?
    ensures Cap.InFlight(xs, day) == 0
  {
    if xs != [] { NobodyFlies(xs[..|xs| - 1], day); }
  }

  /** The tables' keys and the windows: nothing is sent, applied or inverted twice, or sent early, or
      after its cancel; and of every send that became `applied` on the day, the cap lets through no more
      than its text comparison cannot see and its counting has forgotten. */
  ghost predicate KeepsToTheRules(k: nat, t: Q.Queue, window: nat, exact: bool, day: int) {
    && D.SentOnce(t.dispatches) && D.AppliedOnce(t.applied) && R.InvertedOnce(t.inverses)
    && Cap.Sent(t.applied, day) <=
       20 + (k - 1) + Cap.SentEarly(t.applied, day) + Cap.Refunds(t.restamps, t.applied, day)
    && (forall i | 0 <= i < |t.dispatches| && C.IsSend(t.dispatches[i].spec) ::
          C.Cooled(t.dispatches[i].spec, t.dispatches[i].at, window, exact))
    && (forall id: nat | id < |t.rows| && t.rows[id].status.Cancelled? :: !D.WasSent(t.dispatches, id))
  }

  lemma RulesAreKept(q: Q.Queue, ts: seq<O.Tick>, window: nat, exact: bool, day: int)
    requires O.Runs(q, ts) && T.Fresh(q) && q.rows == [] && q.history == map[] && 0 <= q.now
    requires Cap.IsMidnight(day) && C.RunTicks(ts, window, exact)
    ensures KeepsToTheRules(|q.drainers|, O.After(q, ts), window, exact, day)
  {
    EmptyIsSound(q, window, exact);
    D.AtMostOneDispatch(q, ts);
    R.AtMostOneInverse(q, ts);
    Cap.DailySends(q, ts, day);
    C.RunKeepsCooling(q, ts, window, exact);
    var t := O.After(q, ts);
    forall i | 0 <= i < |t.dispatches| && C.IsSend(t.dispatches[i].spec)
      ensures C.Cooled(t.dispatches[i].spec, t.dispatches[i].at, window, exact)
    {
      assert C.SentCooled(t.dispatches[i], t.now, window, exact);
    }
  }

  /** The reverter's rows alone carry the marker, each of them that is applied has taken its message
      back, and its email is visible unless its repair was abandoned. */
  ghost predicate RevertsHold(q: Q.Queue, ts: seq<O.Tick>)
    requires O.Runs(q, ts)
  {
    var t := O.After(q, ts);
    && (forall i | 0 <= i < |t.rows| && HasRevertMarker(t.rows[i].spec.payload) :: R.IsInverseRow(t.inverses, i))
    && (forall v | v in t.inverses && D.IsApplied(t.rows, v.row) && IsMoveFamily(t.rows[v.row].spec.action) ::
          exists i: nat, j: nat :: T.IsRestored(q, t, v, i, j))
    && (forall r: nat | D.IsApplied(t.rows, r) && Rep.NeedsRepair(t.rows[r].spec) && !Rep.SomebodyAtRepair(t, r) ::
          Rep.IsVisible(t, r) <==> !Rep.Abandoned(q, ts, r))
  }

  lemma RevertsAreHeld(q: Q.Queue, ts: seq<O.Tick>)
    requires O.Runs(q, ts) && T.Fresh(q) && q.rows == [] && q.history == map[] && 0 <= q.now
    ensures RevertsHold(q, ts)
  {
    EmptyIsSound(q, 0, false);
    R.RunKeepsProvenance(q, ts);
    var t := O.After(q, ts);
    forall v | v in t.inverses && D.IsApplied(t.rows, v.row) && IsMoveFamily(t.rows[v.row].spec.action)
      ensures exists i: nat, j: nat :: T.IsRestored(q, t, v, i, j)
    {
      T.RevertRestoresTheFolder(q, ts, v);
    }
    forall r: nat | D.IsApplied(t.rows, r) && Rep.NeedsRepair(t.rows[r].spec) && !Rep.SomebodyAtRepair(t, r)
      ensures Rep.IsVisible(t, r) <==> !Rep.Abandoned(q, ts, r)
    {
      Rep.RevertClearsSoftDelete(q, ts, r);
    }
  }

  // ----- a pause at any point of a run -----

  lemma {:induction false} RunSplits(q: Q.Queue, ts: seq<O.Tick>, n: nat)
    requires O.Runs(q, ts) && n <= |ts|
    ensures O.Runs(q, ts[..n]) && O.Runs(O.After(q, ts[..n]), ts[n..])
    ensures O.After(O.After(q, ts[..n]), ts[n..]) == O.After(q, ts)
    decreases n
  {
    if n > 0 {
      var t := Q.Step(q, ts[0].grants, ts[0].event);
      assert ts[..n][0] == ts[0] && ts[..n][1..] == ts[1..][..n - 1] && ts[n..] == ts[1..][n - 1..];
      RunSplits(t, ts[1..], n - 1);
    } else {
      assert ts[..0] == [] && ts[0..] == ts;
    }
  }

  /** Paused after its first `n` steps and not resumed in the rest, the run has at most one more
      dispatch of each drainer. */
  ghost predicate StopsAtPauses(q: Q.Queue, ts: seq<O.Tick>)
    requires O.Runs(q, ts)
  {
    forall n: nat, d: nat | n <= |ts| && d < |q.drainers| && O.Runs(q, ts[..n]) ::
      PausedFrom(q, ts, n) ==> P.By(O.After(q, ts).dispatches, d) <= P.By(O.After(q, ts[..n]).dispatches, d) + 1
  }

  ghost predicate PausedFrom(q: Q.Queue, ts: seq<O.Tick>, n: nat)
    requires n <= |ts| && O.Runs(q, ts[..n])
  {
    O.After(q, ts[..n]).paused && P.StaysPaused(ts[n..])
  }

  lemma {:induction false} DrainersRemain(q: Q.Queue, ts: seq<O.Tick>)
    requires O.Runs(q, ts)
    ensures |O.After(q, ts).drainers| == |q.drainers|
    decreases |ts|
  {
    if ts != [] {
      T.OthersKeepDrainers(q, ts[0].grants, ts[0].event);
      DrainersRemain(Q.Step(q, ts[0].grants, ts[0].event), ts[1..]);
    }
  }

  lemma PausesStop(q: Q.Queue, ts: seq<O.Tick>)
    requires O.Runs(q, ts)
    ensures StopsAtPauses(q, ts)
  {
    forall n: nat, d: nat | n <= |ts| && d < |q.drainers| && O.Runs(q, ts[..n]) && PausedFrom(q, ts, n)
      ensures P.By(O.After(q, ts).dispatches, d) <= P.By(O.After(q, ts[..n]).dispatches, d) + 1
    {
      RunSplits(q, ts, n);
      DrainersRemain(q, ts[..n]);
      P.PauseAllowsOneMore(O.After(q, ts[..n]), ts[n..], d);
    }
  }

  /** Whoever claimed its row before it saw such a pause dispatches nothing more and gives the row back, or
      is about to, unless it dies with it. */
  ghost predicate ReturnsAtPauses(q: Q.Queue, ts: seq<O.Tick>)
    requires O.Runs(q, ts)
  {
    forall n: nat, d: nat, id: nat | n <= |ts| && d < |q.drainers| && IsCut(q, ts, n) ::
      ReturnsFrom(O.After(q, ts[..n]), ts[n..], d, id)
  }

  /** The run consists of its first `n` steps and the others. */
  ghost predicate IsCut(q: Q.Queue, ts: seq<O.Tick>, n: nat)
    requires n <= |ts|
  {
    O.Runs(q, ts[..n]) && O.Runs(O.After(q, ts[..n]), ts[n..])
  }

  ghost predicate ReturnsFrom(q: Q.Queue, ts: seq<O.Tick>, d: nat, id: nat)
    requires O.Runs(q, ts)
  {
    var t := O.After(q, ts);
    q.paused && P.Stays(ts, d) && d < |q.drainers| && P.Returning(q.drainers[d], id) ==>
      && |t.drainers| == |q.drainers| && P.By(t.dispatches, d) == P.By(q.dispatches, d)
      && (P.ReturnsAtSomePoint(q, ts, d, id) || P.Returning(t.drainers[d], id))
  }

  lemma PausesReturn(q: Q.Queue, ts: seq<O.Tick>)
    requires O.Runs(q, ts) && O.Known(q)
    ensures ReturnsAtPauses(q, ts)
  {
    forall n: nat, d: nat, id: nat | n <= |ts| && d < |q.drainers| && IsCut(q, ts, n)
      ensures ReturnsFrom(O.After(q, ts[..n]), ts[n..], d, id)
    {
      var u := O.After(q, ts[..n]);
      O.RunKeepsKnown(q, ts[..n]);
      if u.paused && P.Stays(ts[n..], d) && d < |u.drainers| && P.Returning(u.drainers[d], id) {
        P.PauseReturnsTheRow(u, ts[n..], d, id);
      }
    }
  }

  // ----- what a run leaves behind -----

  /** Unless a worker died inside a row, every `draining` row is in somebody's hands; and an applied row is
      there to stay exactly if nobody works on it any more. */
  ghost predicate LeavesNothingOpen(q: Q.Queue, ts: seq<O.Tick>)
    requires O.Runs(q, ts)
  {
    var t := O.After(q, ts);
    && ((forall k | 0 <= k < |ts| :: O.Survives(ts[k].event)) ==> O.AllHeld(t))
    && (forall id: nat | D.IsApplied(t.rows, id) :: StaysApplied(t, id) <==> !D.SomebodyMayWrite(t.drainers, id))
  }

  ghost predicate StaysApplied(t: Q.Queue, id: nat)
    requires id < |t.rows|
  {
    forall ts: seq<O.Tick> :: !D.Rewrites(t, ts, id)
  }

  lemma NothingIsLeftOpen(q: Q.Queue, ts: seq<O.Tick>)
    requires O.Runs(q, ts) && O.Known(q) && O.AllHeld(q)
    ensures LeavesNothingOpen(q, ts)
  {
    var t := O.After(q, ts);
    if forall k | 0 <= k < |ts| :: O.Survives(ts[k].event) { O.DrainingIsHeld(q, ts); }
    forall id: nat | D.IsApplied(t.rows, id) ensures StaysApplied(t, id) <==> !D.SomebodyMayWrite(t.drainers, id) {
      D.AppliedIsFinal(t, id);
    }
  }

  // ----- what every dispatch and every failure rests on -----

  /** Dispatch `i` was made on a fine read of its email in the same claim. */
  ghost predicate IsOnARead(ps: seq<Why.Past>, i: nat, s: Q.Dispatch) {
    exists k: nat, n: nat :: Why.IsSentOnRead(ps, i, s, k, n)
  }

  /** Some step failed the row for that reason. */
  ghost predicate IsForAReason(ps: seq<Why.Past>, id: nat, reason: string) {
    exists d: nat, k: nat :: k < |ps| && Why.Decides(ps[k], d, id, reason)
  }

  /** So with every dispatch and every failed row. */
  ghost predicate EverythingHasAReason(q: Q.Queue, ts: seq<O.Tick>)
    requires O.Runs(q, ts)
  {
    var t := O.After(q, ts);
    && (forall i: nat | i < |t.dispatches| :: IsOnARead(Why.Pasts(q, ts), i, t.dispatches[i]))
    && (forall id: nat | id < |t.rows| && t.rows[id].status.Failed? ::
          IsForAReason(Why.Pasts(q, ts), id, t.rows[id].reason))
  }

  lemma ReasonsAreGiven(q: Q.Queue, ts: seq<O.Tick>)
    requires O.Runs(q, ts) && T.Fresh(q) && q.rows == []
    ensures EverythingHasAReason(q, ts)
  {
    var t := O.After(q, ts);
    assert Why.IsUnexplained(q);
    hide Why.IsSentOnRead, Why.Decides;
    forall i: nat | i < |t.dispatches| ensures IsOnARead(Why.Pasts(q, ts), i, t.dispatches[i]) {
      Why.SentOnlyOnAFineRead(q, ts, i);
    }
    forall id: nat | id < |t.rows| && t.rows[id].status.Failed?
      ensures IsForAReason(Why.Pasts(q, ts), id, t.rows[id].reason)
    {
      Why.FailedOnlyForItsReason(q, ts, id);
    }
  }

  /** What Tier 2 does waits until a grant of its type is minted. */
  ghost predicate TierTwoWaits(t: S.Sys) {
    forall id: nat | id < |t.queue.rows| && TierFor(t.queue.rows[id].spec.action) == 2 ::
      t.queue.rows[id].status.PendingGrant? || W.HasGrant(t.auth.grants, t.queue.rows[id].spec.action)
  }

  lemma TierTwoIsHeldBack(s: S.Sys, es: seq<S.Event>)
    requires S.Runs(s, es) && A.IsEmpty(s)
    ensures TierTwoWaits(S.After(s, es))
  {
    var t := S.After(s, es);
    forall id: nat | id < |t.queue.rows| && TierFor(t.queue.rows[id].spec.action) == 2
      ensures t.queue.rows[id].status.PendingGrant? || W.HasGrant(t.auth.grants, t.queue.rows[id].spec.action)
    {
      W.TierTwoWaitsForAGrant(s, es, id);
    }
  }

  // ----- everything -----

  ghost predicate IsApproved(t: S.Sys) {
    forall i | 0 <= i < |t.queue.dispatches| && RequiresGrant(t.queue.dispatches[i].spec.action) ::
      A.Authorized(t, t.queue.dispatches[i])
  }

  lemma EmptyIsFresh(s: S.Sys)
    requires A.IsEmpty(s)
    ensures T.Fresh(s.queue) && s.queue.rows == [] && s.queue.history == map[] && 0 <= s.queue.now
  {
  }

  lemma ApprovalsHold(s: S.Sys, es: seq<S.Event>)
    requires S.Runs(s, es) && A.IsEmpty(s)
    ensures IsApproved(S.After(s, es))
  {
    var t := S.After(s, es);
    forall i | 0 <= i < |t.queue.dispatches| && RequiresGrant(t.queue.dispatches[i].spec.action)
      ensures A.Authorized(t, t.queue.dispatches[i])
    {
      A.NoUnapprovedDispatch(s, es, i);
    }
  }

  /** Whatever the drainers, the user, sync, the verbs and Graph do from an empty database: keys,
      windows and the cap hold, and the cap takes no stamp back if there is one drainer or no
      notification raises; every dispatch above Tier 1 stands on its own approval, and each on a fine
      read of its email; every failed row was failed for its reason; Tier 2 waits for a grant; reverts take
      the message back; a pause stops each drainer after one more dispatch, and rows it meets are given back;
      no row is left `draining` by a worker that lives, and an applied one is final once nobody works on
      it; and no two drainers hold a row, exactly if no late failure is written over another's claim, as
      none is if no notification raises. */
  lemma EveryRunIsSafe(s: S.Sys, es: seq<S.Event>, window: nat, exact: bool, day: int)
    requires S.Runs(s, es) && A.IsEmpty(s) && Cap.IsMidnight(day)
    requires C.RunTicks(S.Ticks(s, es), window, exact)
    ensures O.Runs(s.queue, S.Ticks(s, es))
    ensures KeepsToTheRules(|s.queue.drainers|, S.After(s, es).queue, window, exact, day)
    ensures IsApproved(S.After(s, es))
    ensures |s.queue.drainers| <= 1 || O.AllNotifyWell(s.queue, S.Ticks(s, es)) ==>
              var t := S.After(s, es).queue; Cap.Refunds(t.restamps, t.applied, day) == 0
    ensures Ask.Calls(S.After(s, es).queue.dispatches, day) <=
            20 + (|s.queue.drainers| - 1) + Ask.Losses(s.queue, S.Ticks(s, es), day)
    ensures RevertsHold(s.queue, S.Ticks(s, es))
    ensures EverythingHasAReason(s.queue, S.Ticks(s, es)) && TierTwoWaits(S.After(s, es))
    ensures StopsAtPauses(s.queue, S.Ticks(s, es)) && ReturnsAtPauses(s.queue, S.Ticks(s, es))
    ensures LeavesNothingOpen(s.queue, S.Ticks(s, es))
    ensures O.AlwaysOwned(s.queue, S.Ticks(s, es)) <==> !O.Trespassed(s.queue, S.Ticks(s, es))
    ensures O.AllNotifyWell(s.queue, S.Ticks(s, es)) ==> O.AlwaysOwned(s.queue, S.Ticks(s, es))
  {
    hide *;
    var q, ts := s.queue, S.Ticks(s, es);
    EmptyIsFresh(s);
    S.SystemRunIsQueueRun(s, es);
    RulesAreKept(q, ts, window, exact, day);
    ApprovalsHold(s, es);
    RevertsAreHeld(q, ts);
    ReasonsAreGiven(q, ts);
    TierTwoIsHeldBack(s, es);
    PausesStop(q, ts);
    EmptyIsSound(q, window, exact);
    PausesReturn(q, ts);
    NothingIsLeftOpen(q, ts);
    CallsAreBounded(q, ts, window, exact, day);
    if |q.drainers| <= 1 || O.AllNotifyWell(q, ts) { NothingIsTakenBack(q, ts, window, exact, day); }
    UndisputedIsOwned(q);
    O.OwnedIffNoTrespass(q, ts);
    if O.AllNotifyWell(q, ts) { O.QuietNotificationsKeepOwned(q, ts); }
  }

  lemma NothingIsTakenBack(q: Q.Queue, ts: seq<O.Tick>, window: nat, exact: bool, day: int)
    requires O.Runs(q, ts) && T.Fresh(q) && q.rows == [] && q.history == map[] && 0 <= q.now && Cap.IsMidnight(day)
    requires |q.drainers| <= 1 || O.AllNotifyWell(q, ts)
    ensures var t := O.After(q, ts); Cap.Refunds(t.restamps, t.applied, day) == 0
  {
    EmptyIsSound(q, window, exact);
    if |q.drainers| <= 1 { Cap.OneDrainerNeverOverwrites(q, ts); } else { Cap.QuietNotificationsNeverOverwrite(q, ts); }
    Cap.CapHoldsUnlessOverwritten(q, ts, day);
  }

  lemma CallsAreBounded(q: Q.Queue, ts: seq<O.Tick>, window: nat, exact: bool, day: int)
    requires O.Runs(q, ts) && T.Fresh(q) && q.rows == [] && q.history == map[] && 0 <= q.now && Cap.IsMidnight(day)
    ensures Ask.Calls(O.After(q, ts).dispatches, day) <=
            20 + (|q.drainers| - 1) + Ask.Losses(q, ts, day)
  {
    EmptyIsSound(q, window, exact);
    Ask.DailyCalls(q, ts, day);
  }

  lemma UndisputedIsOwned(q: Q.Queue)
    requires O.Undisputed(q)
    ensures O.Owned(q)
  {
  }
}
