/** The tables of the action queue and the effect of each SQL statement on them.
    Ids are AUTOINCREMENT and rows are never deleted, so a table is a sequence indexed by id. */
module Tables {
  import opened Actions
  import opened Timestamps

  datatype Status = CoolingOff | Pending | PendingGrant | Draining | Applied | Failed | Cancelled

  datatype Row = Row(
    spec: Spec, status: Status, terminalAt: Option<int>, budget: bool,
    grantId: Option<nat>, reason: string)

  /** `pre` is the captured source folder; None is the empty '{}' of every other action. */
  datatype History = History(pre: Option<string>, revertedAt: Option<int>)

  datatype Email = Email(marker: Option<string>, deleted: bool)

  datatype Grant = Grant(
    action: ActionType, ids: seq<string>, expiry: Stamp, mintedAt: int, revokedAt: Option<int>)

  const DAILY_SEND_CAP := 20
  const BATCH_SIZE := 25
  const TIER_3_GRANT_WAIT_WINDOW := 30 * MINUTE
  const REVERT_WINDOW := 24 * HOUR
  const REPLAY_WINDOW := 7 * DAY
  const MAX_GRANT_WINDOW := 24 * HOUR
  const MAX_BATCH_SIZE := 200
  const CONFIRMATION_TTL := 10 * MINUTE

  /** PENDING_ACTION_INSERT */
  function NewRow(spec: Spec, status: Status): Row { Row(spec, status, None, false, None, "") }

  /** COOLING_OFF_PROMOTE_DUE, one row */
  predicate IsDue(r: Row, cutoff: int) {
    r.status.CoolingOff? && UtcAtMost(r.spec.proposedAt, cutoff)
  }

  function PromoteDue(rows: seq<Row>, cutoff: int): (r: seq<Row>)
    ensures |r| == |rows|
    ensures forall i | 0 <= i < |rows| ::
              r[i] == if IsDue(rows[i], cutoff) then rows[i].(status := Pending) else rows[i]
  {
    seq(|rows|, i requires 0 <= i < |rows| =>
      if IsDue(rows[i], cutoff) then rows[i].(status := Pending) else rows[i])
  }

  /** PENDING_GRANT_PROMOTE_FOR_ACTION_TYPE */
  function PromoteGranted(rows: seq<Row>, action: ActionType): (r: seq<Row>)
    ensures |r| == |rows|
    ensures forall i | 0 <= i < |rows| ::
              r[i] == if rows[i].status.PendingGrant? && rows[i].spec.action == action
                      then rows[i].(status := Pending) else rows[i]
  {
    seq(|rows|, i requires 0 <= i < |rows| =>
      if rows[i].status.PendingGrant? && rows[i].spec.action == action
      then rows[i].(status := Pending) else rows[i])
  }

  /** PENDING_ACTION_MARK_APPLIED and PENDING_ACTION_MARK_APPLIED_WITH_GRANT */
  function MarkApplied(r: Row, stamp: int, budget: bool, grant: Option<nat>): Row {
    r.(status := Applied, terminalAt := Some(stamp), budget := budget,
       grantId := if grant.Some? then grant else r.grantId)
  }

  /** PENDING_ACTION_MARK_FAILED */
  function MarkFailed(r: Row, reason: string, stamp: int, budget: bool): Row {
    r.(status := Failed, terminalAt := Some(stamp), budget := budget, reason := reason)
  }

  /** PENDING_ACTION_REPLAY_RESET leaves `budget_consumed` as it was. */
  function Reset(r: Row): Row { r.(status := Pending, terminalAt := None, reason := "") }

  /** SEND_FAMILY_BUDGET_CONSUMED_TODAY_COUNT, one row: NULL compares as unknown. */
  predicate Counts(r: Row, midnight: int) {
    r.budget && IsSendFamily(r.spec.action) &&
    r.terminalAt.Some? && UtcAtMost(midnight, r.terminalAt.value)
  }

  function BudgetConsumed(rows: seq<Row>, midnight: int): nat {
    if rows == [] then 0
    else BudgetConsumed(rows[..|rows| - 1], midnight) + if Counts(rows[|rows| - 1], midnight) then 1 else 0
  }

  /** ACTION_GRANT_FIND_VALID, one row */
  predicate IsLive(g: Grant, action: ActionType, now: int) {
    g.action == action && Outlasts(g.expiry, now) && g.revokedAt.None?
  }

  predicate Covers(g: Grant, emailId: Option<string>) {
    g.ids == [] || (emailId.Some? && emailId.value in g.ids)
  }

  /** `is_grant_valid`: the first live grant, by id, that covers the target. */
  function FindGrant(grants: seq<Grant>, action: ActionType, emailId: Option<string>, now: int): (g: Option<nat>)
    ensures g.Some? ==> g.value < |grants| && IsLive(grants[g.value], action, now) && Covers(grants[g.value], emailId)
    ensures g.Some? ==> RequiresGrant(action)
    ensures g.None? && RequiresGrant(action) ==>
              forall i | 0 <= i < |grants| :: !(IsLive(grants[i], action, now) && Covers(grants[i], emailId))
  {
    if RequiresGrant(action) then FirstGrant(grants, action, emailId, now, 0) else None
  }

  function FirstGrant(grants: seq<Grant>, action: ActionType, emailId: Option<string>, now: int, from: nat)
    : (g: Option<nat>)
    requires from <= |grants|
    ensures g.Some? ==> from <= g.value < |grants| && IsLive(grants[g.value], action, now) &&
                        Covers(grants[g.value], emailId)
    ensures forall i | from <= i < if g.Some? then g.value else |grants| ::
              !(IsLive(grants[i], action, now) && Covers(grants[i], emailId))
    decreases |grants| - from
  {
    if from == |grants| then None
    else if IsLive(grants[from], action, now) && Covers(grants[from], emailId) then Some(from)
    else FirstGrant(grants, action, emailId, now, from + 1)
  }

  datatype Picked = Picked(id: nat, spec: Spec)

  /** A row comes before another in PENDING_ACTIONS_SELECT_DRAINABLE. */
  predicate DrainsBefore(a: Spec, b: Spec) {
    a.tier < b.tier || (a.tier == b.tier && UtcAtMost(a.proposedAt, b.proposedAt))
  }

  predicate InBatch(batch: seq<Picked>, id: nat) {
    exists i | 0 <= i < |batch| :: batch[i].id == id
  }

  predicate AllBefore(batch: seq<Picked>, s: Spec) {
    forall i | 0 <= i < |batch| :: DrainsBefore(batch[i].spec, s)
  }

  /** Pending rows, each once, by tier and then age. */
  predicate IsSelection(rows: seq<Row>, batch: seq<Picked>) {
    && (forall i | 0 <= i < |batch| ::
          batch[i].id < |rows| && rows[batch[i].id].status.Pending? && rows[batch[i].id].spec == batch[i].spec)
    && (forall i, j | 0 <= i < j < |batch| :: batch[i].id != batch[j].id && DrainsBefore(batch[i].spec, batch[j].spec))
  }

  /** Every pending row left out comes after the whole batch. */
  predicate LeavesLater(rows: seq<Row>, batch: seq<Picked>) {
    forall id: nat | id < |rows| && rows[id].status.Pending? && !InBatch(batch, id) :: AllBefore(batch, rows[id].spec)
  }

  predicate IsComplete(rows: seq<Row>, batch: seq<Picked>) {
    forall id: nat | id < |rows| && rows[id].status.Pending? :: InBatch(batch, id)
  }

  /** PENDING_ACTIONS_SELECT_DRAINABLE: the first `limit` pending rows by tier, then age. */
  predicate IsDrainable(rows: seq<Row>, batch: seq<Picked>, limit: nat) {
    && IsSelection(rows, batch) && LeavesLater(rows, batch)
    && |batch| <= limit && (|batch| < limit ==> IsComplete(rows, batch))
  }

  /** The next of the first `n` rows in drain order that is pending and not in the batch yet. */
  function NextPending(rows: seq<Row>, batch: seq<Picked>, n: nat): (best: Option<nat>)
    requires n <= |rows|
    ensures best.Some? ==> best.value < n && rows[best.value].status.Pending? && !InBatch(batch, best.value)
    ensures forall id: nat | id < n && rows[id].status.Pending? && !InBatch(batch, id) ::
              best.Some? && DrainsBefore(rows[best.value].spec, rows[id].spec)
  {
    if n == 0 then None
    else
      var best := NextPending(rows, batch, n - 1);
      if !rows[n - 1].status.Pending? || InBatch(batch, n - 1) then best
      else if best.Some? && DrainsBefore(rows[best.value].spec, rows[n - 1].spec) then best
      else Some(n - 1)
  }

  lemma SelectionGrows(rows: seq<Row>, batch: seq<Picked>, id: nat)
    requires IsSelection(rows, batch) && LeavesLater(rows, batch)
    requires id < |rows| && rows[id].status.Pending? && !InBatch(batch, id)
    requires forall k: nat | k < |rows| && rows[k].status.Pending? && !InBatch(batch, k) ::
               DrainsBefore(rows[id].spec, rows[k].spec)
    ensures var b := batch + [Picked(id, rows[id].spec)]; IsSelection(rows, b) && LeavesLater(rows, b)
  {
    var b := batch + [Picked(id, rows[id].spec)];
    assert AllBefore(batch, rows[id].spec);
    forall i | 0 <= i < |batch| ensures batch[i].id != id { assert !InBatch(batch, id); }
    forall k: nat | k < |rows| && rows[k].status.Pending? && !InBatch(b, k) ensures AllBefore(b, rows[k].spec) {
      assert b[|batch|].id == id && forall i | 0 <= i < |batch| :: b[i] == batch[i];
      assert forall i | 0 <= i < |batch| :: batch[i].id != k;
    }
  }

  /** An answer of the SELECT, which leaves the order of equals open. */
  function SelectDrainable(rows: seq<Row>, limit: nat): (batch: seq<Picked>)
    ensures IsDrainable(rows, batch, limit)
  {
    SelectMore(rows, [], limit)
  }

  function SelectMore(rows: seq<Row>, batch: seq<Picked>, limit: nat): (r: seq<Picked>)
    requires |batch| <= limit && IsSelection(rows, batch) && LeavesLater(rows, batch)
    ensures IsDrainable(rows, r, limit)
    decreases limit - |batch|
  {
    var next := NextPending(rows, batch, |rows|);
    if |batch| == limit || next.None? then batch
    else
      SelectionGrows(rows, batch, next.value);
      SelectMore(rows, batch + [Picked(next.value, rows[next.value].spec)], limit)
  }
}
