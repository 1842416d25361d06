/** The action queue as a state machine: every database call, Graph call and clock reading is
    one atomic step, and drainers, verbs, sync and the user interleave between steps. */
module Queue {
  import opened Actions
  import opened Timestamps
  import opened Tables

  datatype Stage =
    | Claimed | Releasing | Checking | Scanning | Vetting | Capping | Counting | Capturing
    | Recording | Dispatching | Stamping | Marking | Repairing | Failing | Notifying | Recovering | Waiting

  /** What a drainer carries about the row in hand. No step reads the last two: `seen` is how many
      moves had happened when the pre-state was read, and `late` that the row's verdict is written
      already, although the drainer is not done with it. */
  datatype Job = Job(
    id: nat, spec: Spec, grant: Option<nat>, checkedAt: int, since: int,
    pre: Option<string>, stamp: int, reason: string, seen: nat, late: bool)

  datatype Drainer =
    | Idle
    | Polled
    | Looping(batch: seq<Picked>, processed: int)
    | Working(stage: Stage, job: Job, batch: seq<Picked>, processed: int)

  /** A call of `revert_action` or `replay_action` in flight. */
  datatype Call =
    | Reverting(id: nat, spec: Spec)
    | Resolved(id: nat, inverse: Spec, hadHistory: bool)
    | Claiming(id: nat, inverse: Spec)
    | Inverting(id: nat, inverse: Spec)
    | Replaying(id: nat, spec: Spec)
    | Seeking(id: nat, spec: Spec, asOf: int)
    | Granted(id: nat, spec: Spec)
    | Resetting(id: nat)

  datatype Dispatch = Dispatch(id: nat, spec: Spec, drainer: nat, grant: Option<nat>, checkedAt: int, at: int)
  datatype Move = Move(email: string, from: Option<string>, to: Option<string>, cause: Option<nat>)
  datatype Mark = Mark(email: string, deleted: bool, cause: Option<nat>)
  datatype Capture = Capture(folder: string, seen: nat)
  datatype Inverse = Inverse(of: nat, row: nat)

  /** A MARK_APPLIED with its stamp, and a new stamp, or none, for a row that was applied before. */
  datatype Application = Application(id: nat, spec: Spec, at: int)
  datatype Restamp = Restamp(id: nat, was: Option<int>, stamp: Option<int>)

  /** From `dispatches` on, the fields record what has happened; nothing else depends on them. */
  datatype Queue = Queue(
    now: int, paused: bool,
    rows: seq<Row>, history: map<nat, History>, emails: map<string, Email>, mailbox: map<string, string>,
    drainers: seq<Drainer>, calls: map<nat, Call>,
    dispatches: seq<Dispatch>, moves: seq<Move>, marks: seq<Mark>, captures: map<nat, Capture>,
    inverses: seq<Inverse>, applied: seq<Application>, restamps: seq<Restamp>)

  /** How the world answers a step: as asked, with an error, with an effect whose reply was lost,
      by raising into the row's catch-all guard, by raising inside that guard, or by killing the
      worker. */
  datatype Choice = Go | Fail | LostReply | Throw | Lose | Crash | Pick(batch: seq<Picked>)

  // ----- one drainer: where it goes next, then what it writes, table by table -----

  function Done(w: Drainer): Drainer
    requires w.Working?
  {
    Looping(w.batch, w.processed)
  }

  function GiveUp(w: Drainer, reason: string, now: int): Drainer
    requires w.Working?
  {
    w.(stage := Failing, job := w.job.(reason := reason, stamp := now))
  }

  /** An exception reaches the catch-all guard of the row. */
  function Catch(w: Drainer, reason: string, now: int): Drainer
    requires w.Working?
  {
    w.(stage := Recovering, job := w.job.(reason := reason, stamp := now))
  }

  /** The verdict is written and more is to do. */
  function Linger(w: Drainer, stage: Stage): Drainer
    requires w.Working?
  {
    w.(stage := stage, job := w.job.(late := true))
  }

  function StartJob(p: Picked): Job { Job(p.id, p.spec, None, 0, 0, None, 0, "", 0, false) }

  predicate IsClaimable(rows: seq<Row>, p: Picked) {
    p.id < |rows| && rows[p.id].status.Pending?
  }

  /** `_claim_row` on the head of the batch; a drainer that lost the race skips the row. */
  function ClaimNext(rows: seq<Row>, x: Drainer): Drainer
    requires x.Looping?
  {
    if x.batch == [] then Idle
    else if IsClaimable(rows, x.batch[0]) then Working(Claimed, StartJob(x.batch[0]), x.batch[1..], x.processed + 1)
    else Looping(x.batch[1..], x.processed)
  }

  /** `_check_tier_2` and `_check_tier_3` start with the clock of `is_grant_valid`; Tier 1 has no
      grant to look for. */
  function CheckNext(now: int, w: Drainer): Drainer
    requires w.Working?
  {
    var s := w.job.spec;
    if s.tier == 1 then w.(stage := Vetting)
    else if s.tier == 2 || s.tier == 3 then w.(stage := Scanning, job := w.job.(checkedAt := now))
    else GiveUp(w, "invalid_tier", now)
  }

  /** The grants are read after that. */
  function ScanNext(now: int, grants: seq<Grant>, w: Drainer): Drainer
    requires w.Working?
  {
    var s := w.job.spec;
    var g := FindGrant(grants, s.action, s.emailId, w.job.checkedAt);
    if g.Some? then w.(stage := Vetting, job := w.job.(grant := g))
    else if s.tier == 3 && now - s.proposedAt > TIER_3_GRANT_WAIT_WINDOW then
      GiveUp(w, "grant_expired_unauthorized", now)
    else w.(stage := Waiting)
  }

  /** The lenient rule of Tiers 1 and 2 and the strict one of Tier 3. */
  function VetFailure(emails: map<string, Email>, s: Spec): Option<string> {
    if s.emailId.None? || (s.tier != 3 && IsRevertRow(s)) then None
    else
      var e := s.emailId.value;
      if e !in emails || emails[e].deleted then Some("target_deleted")
      else if s.tier == 3 && emails[e].marker != s.marker then Some("state_drift_etag")
      else None
  }

  function VetNext(now: int, emails: map<string, Email>, w: Drainer): Drainer
    requires w.Working?
  {
    var f := VetFailure(emails, w.job.spec);
    if f.Some? then GiveUp(w, f.value, now)
    else if IsSendFamily(w.job.spec.action) then w.(stage := Capping)
    else if IsMoveFamily(w.job.spec.action) then w.(stage := Capturing)
    else w.(stage := Recording)
  }

  function CountNext(now: int, rows: seq<Row>, w: Drainer): Drainer
    requires w.Working?
  {
    if BudgetConsumed(rows, w.job.since) >= DAILY_SEND_CAP then GiveUp(w, "daily_send_cap_exceeded", now)
    else w.(stage := Recording)
  }

  /** `_capture_move_pre_state`: anything but a non-empty folder fails the row closed. */
  function CaptureNext(q: Queue, w: Drainer, c: Choice): Drainer
    requires w.Working?
  {
    var e := w.job.spec.emailId;
    if c == Go && e.Some? && e.value in q.mailbox && q.mailbox[e.value] != "" then
      w.(stage := Recording, job := w.job.(pre := Some(q.mailbox[e.value]), seen := |q.moves|))
    else GiveUp(w, "pre_state_capture_failed", q.now)
  }

  /** The stages the row's catch-all guard encloses. */
  predicate Guarded(s: Stage) {
    !s.Claimed? && !s.Releasing? && !s.Dispatching? && !s.Stamping? && !s.Recovering?
  }

  function WorkNext(q: Queue, grants: seq<Grant>, w: Drainer, c: Choice): Drainer
    requires w.Working?
  {
    if c == Crash then Idle
    else if c == Lose then Done(w)
    else if c == Throw then Catch(w, "drainer_internal_error", q.now)
    else match w.stage
      case Claimed => w.(stage := if c == Fail || q.paused then Releasing else Checking)
      case Releasing => Idle
      case Checking => CheckNext(q.now, w)
      case Scanning => ScanNext(q.now, grants, w)
      case Vetting => VetNext(q.now, q.emails, w)
      case Capping => w.(stage := Counting, job := w.job.(since := Midnight(q.now)))
      case Counting => CountNext(q.now, q.rows, w)
      case Capturing => CaptureNext(q, w, c)
      case Recording =>
        if w.job.id in q.history then Catch(w, "drainer_internal_error:IntegrityError", q.now)
        else w.(stage := Dispatching)
      case Dispatching => if c == Go then w.(stage := Stamping) else GiveUp(w, "provider_error", q.now)
      case Stamping => w.(stage := Marking, job := w.job.(stamp := q.now))
      case Marking =>
        if IsRevertRow(w.job.spec) && w.job.spec.emailId.Some? then Linger(w, Repairing) else Done(w)
      case Failing => if w.job.spec.tier == 1 then Done(w) else Linger(w, Notifying)
      case Repairing | Notifying | Recovering | Waiting => Done(w)
  }

  function DrainNext(q: Queue, grants: seq<Grant>, x: Drainer, c: Choice): Drainer {
    match x
    case Idle => if c == Fail || q.paused then Idle else Polled
    case Polled => if c.Pick? then Looping(c.batch, 0) else Idle
    case Looping(_, _) => if c == Crash then Idle else ClaimNext(q.rows, x)
    case Working(_, _, _, _) => WorkNext(q, grants, x, c)
  }

  /** The row in hand after a write: RELEASE_CLAIM, MARK_APPLIED, MARK_FAILED, REVERT_TO_PENDING_GRANT. */
  function RowAfter(r: Row, stage: Stage, j: Job): Row {
    match stage
    case Releasing => if r.status.Draining? then r.(status := Pending) else r
    case Marking => MarkApplied(r, j.stamp, IsSendFamily(j.spec.action), j.grant)
    case Failing | Recovering => MarkFailed(r, j.reason, j.stamp, IsSendFamily(j.spec.action))
    case Waiting => r.(status := PendingGrant, grantId := None)
    case _ => r
  }

  function RowsAfter(rows: seq<Row>, x: Drainer, c: Choice): seq<Row> {
    if c != Go then rows
    else if x.Looping? && x.batch != [] && IsClaimable(rows, x.batch[0]) then
      rows[x.batch[0].id := rows[x.batch[0].id].(status := Draining)]
    else if x.Working? && x.job.id < |rows| then rows[x.job.id := RowAfter(rows[x.job.id], x.stage, x.job)]
    else rows
  }

  /** A drainer step that completes the given stage as asked. */
  predicate Completes(x: Drainer, c: Choice, stage: Stage) { c == Go && x.Working? && x.stage == stage }

  /** ACTION_HISTORY_INSERT: `action_id` is the primary key, so a second insert raises instead. */
  predicate Records(q: Queue, x: Drainer, c: Choice) {
    Completes(x, c, Recording) && x.job.id !in q.history
  }

  /** `adapter.apply` is called: it accepts, refuses, or succeeds with its reply lost. */
  predicate Sends(x: Drainer, c: Choice) {
    x.Working? && x.stage.Dispatching? && (c == Go || c == Fail || c == LostReply)
  }

  /** Graph carries out a move: the message is put in the row's destination. */
  predicate Moves(q: Queue, x: Drainer, c: Choice) {
    && Sends(x, c) && c != Fail && IsMoveFamily(x.job.spec.action)
    && x.job.spec.emailId.Some? && x.job.spec.emailId.value in q.mailbox && Destination(x.job.spec).Some?
  }

  function MoveOf(q: Queue, x: Drainer): Move
    requires x.Working? && x.job.spec.emailId.Some? && x.job.spec.emailId.value in q.mailbox
    requires Destination(x.job.spec).Some?
  {
    var m := x.job.spec.emailId.value;
    Move(m, Some(q.mailbox[m]), Destination(x.job.spec), Some(x.job.id))
  }

  function DispatchOf(q: Queue, x: Drainer, d: nat): Dispatch
    requires x.Working?
  {
    Dispatch(x.job.id, x.job.spec, d, x.job.grant, x.job.checkedAt, q.now)
  }

  /** EMAIL_CLEAR_SOFT_DELETE */
  function Undelete(emails: map<string, Email>, m: string): map<string, Email> {
    if m in emails then emails[m := emails[m].(deleted := false)] else emails
  }

  predicate WasApplied(done: seq<Application>, id: nat) {
    exists i | 0 <= i < |done| :: done[i].id == id
  }

  /** MARK_FAILED hits a row that has been applied. */
  predicate Lapses(q: Queue, x: Drainer, c: Choice) {
    && (Completes(x, c, Failing) || Completes(x, c, Recovering))
    && x.job.id < |q.rows| && WasApplied(q.applied, x.job.id)
  }

  /** Graph can accept the row: it reaches an endpoint, and a move names a folder and a message. */
  predicate CanAccept(q: Queue, s: Spec) {
    && IsDispatchable(s)
    && (IsMoveFamily(s.action) ==> s.emailId.Some? && s.emailId.value in q.mailbox && Destination(s).Some?)
  }

  predicate CanWork(q: Queue, w: Drainer, c: Choice)
    requires w.Working?
  {
    match c
    case Go => w.stage.Dispatching? ==> CanAccept(q, w.job.spec)
    case Fail => w.stage.Claimed? || w.stage.Capturing? || (w.stage.Dispatching? && !IsLocalOnly(w.job.spec.action))
    case LostReply => w.stage.Dispatching? && !IsLocalOnly(w.job.spec.action)
    case Throw => Guarded(w.stage)
    case Lose => w.stage.Recovering?
    case Crash => true
    case Pick(_) => false
  }

  predicate CanTake(q: Queue, x: Drainer, c: Choice) {
    match x
    case Idle => c == Go || c == Fail
    case Polled => c == Crash || (c.Pick? && IsDrainable(q.rows, c.batch, BATCH_SIZE))
    case Looping(_, _) => c == Go || c == Crash
    case Working(_, _, _, _) => CanWork(q, x, c)
  }

  predicate CanDrain(q: Queue, d: nat, c: Choice) {
    d < |q.drainers| && CanTake(q, q.drainers[d], c)
  }

  /** The next step of drainer `d` inside `run_tick`. */
  function DrainStep(q: Queue, grants: seq<Grant>, d: nat, c: Choice): Queue
    requires d < |q.drainers|
  {
    var x := q.drainers[d];
    q.(drainers := q.drainers[d := DrainNext(q, grants, x, c)],
       rows := RowsAfter(q.rows, x, c),
       history := if Records(q, x, c) then q.history[x.job.id := History(x.job.pre, None)] else q.history,
       captures := if Records(q, x, c) && x.job.pre.Some?
                   then q.captures[x.job.id := Capture(x.job.pre.value, x.job.seen)] else q.captures,
       dispatches := if Sends(x, c) then q.dispatches + [DispatchOf(q, x, d)] else q.dispatches,
       mailbox := if Moves(q, x, c)
                  then q.mailbox[x.job.spec.emailId.value := Destination(x.job.spec).value] else q.mailbox,
       moves := if Moves(q, x, c) then q.moves + [MoveOf(q, x)] else q.moves,
       emails := if Completes(x, c, Repairing) && x.job.spec.emailId.Some?
                 then Undelete(q.emails, x.job.spec.emailId.value) else q.emails,
       marks := if Completes(x, c, Repairing) && x.job.spec.emailId.Some?
                then q.marks + [Mark(x.job.spec.emailId.value, false, Some(x.job.id))] else q.marks,
       applied := if Completes(x, c, Marking) then q.applied + [Application(x.job.id, x.job.spec, x.job.stamp)]
                  else q.applied,
       restamps := if Lapses(q, x, c)
                   then q.restamps + [Restamp(x.job.id, q.rows[x.job.id].terminalAt, Some(x.job.stamp))]
                   else q.restamps)
  }

  // ----- revert and replay -----

  /** The inverse row `revert_action` would queue, or None where it refuses. */
  function InverseOf(s: Spec, id: nat, h: Option<History>, now: int): Option<Spec> {
    if IsMoveFamily(s.action) then
      if h.Some? && h.value.pre.Some? && h.value.pre.value != "" then
        Some(Spec(s.emailId, s.action, TierFor(s.action),
                  map[DestinationFolder := Text(h.value.pre.value), RevertOf := Number(id)], now, None))
      else None
    else
      var a := StaticInverse(s.action);
      if a.Some? then Some(Spec(s.emailId, a.value, TierFor(a.value), s.payload, now, None)) else None
  }

  predicate IsRevertible(q: Queue, id: nat) {
    && id < |q.rows|
    && q.rows[id].spec.tier == 1 && q.rows[id].status.Applied?
    && q.rows[id].terminalAt.Some? && q.now - q.rows[id].terminalAt.value <= REVERT_WINDOW
  }

  predicate IsReplayable(q: Queue, id: nat) {
    && id < |q.rows|
    && q.rows[id].status.Failed?
    && q.rows[id].terminalAt.Some? && q.now - q.rows[id].terminalAt.value <= REPLAY_WINDOW
  }

  function HistoryOf(history: map<nat, History>, id: nat): Option<History> {
    if id in history then Some(history[id]) else None
  }

  predicate IsUnreverted(history: map<nat, History>, id: nat) {
    id in history && history[id].revertedAt.None?
  }

  /** Where the call goes after its next statement; None is the end of the call. */
  function CallNext(q: Queue, grants: seq<Grant>, c: Call): Option<Call> {
    match c
    case Reverting(id, s) =>
      var h := HistoryOf(q.history, id);
      var inverse := InverseOf(s, id, h, q.now);
      if (h.Some? && h.value.revertedAt.Some?) || inverse.None? || inverse.value.tier != 1 then None
      else Some(Resolved(id, inverse.value, h.Some?))
    case Resolved(id, inverse, _) => Some(Claiming(id, inverse))
    case Claiming(id, inverse) => if IsUnreverted(q.history, id) then Some(Inverting(id, inverse)) else None
    case Inverting(_, _) => None
    case Replaying(id, s) => Some(if RequiresGrant(s.action) then Seeking(id, s, q.now) else Granted(id, s))
    case Seeking(id, s, asOf) =>
      if FindGrant(grants, s.action, s.emailId, asOf).None? then None else Some(Granted(id, s))
    case Granted(id, s) =>
      if IsMoveFamily(s.action) && s.emailId.Some? && s.emailId.value in q.emails && q.emails[s.emailId.value].deleted
      then None else Some(Resetting(id))
    case Resetting(_) => None
  }

  /** ACTION_HISTORY_INSERT_IF_ABSENT, then the guarded ACTION_HISTORY_MARK_REVERTED. */
  function HistoryAfterCall(history: map<nat, History>, c: Call): map<nat, History> {
    if c.Resolved? && !c.hadHistory && c.id !in history then history[c.id := History(None, None)]
    else if c.Claiming? && IsUnreverted(history, c.id) then
      history[c.id := history[c.id].(revertedAt := Some(c.inverse.proposedAt))]
    else history
  }

  /** The inverse row's insert, and the guarded PENDING_ACTION_REPLAY_RESET. */
  function RowsAfterCall(rows: seq<Row>, c: Call): seq<Row> {
    if c.Inverting? then rows + [NewRow(c.inverse, Pending)]
    else if c.Resetting? && c.id < |rows| && rows[c.id].status.Failed? then rows[c.id := Reset(rows[c.id])]
    else rows
  }

  /** The reset hits a row that has been applied. */
  predicate Clears(q: Queue, c: Call) {
    c.Resetting? && c.id < |q.rows| && q.rows[c.id].status.Failed? && WasApplied(q.applied, c.id)
  }

  function CallStep(q: Queue, grants: seq<Grant>, p: nat): Queue
    requires p in q.calls
  {
    var c := q.calls[p];
    var next := CallNext(q, grants, c);
    q.(calls := if next.Some? then q.calls[p := next.value] else q.calls - {p},
       history := HistoryAfterCall(q.history, c),
       rows := RowsAfterCall(q.rows, c),
       inverses := if c.Inverting? then q.inverses + [Inverse(c.id, |q.rows|)] else q.inverses,
       restamps := if Clears(q, c)
                   then q.restamps + [Restamp(c.id, q.rows[c.id].terminalAt, None)] else q.restamps)
  }

  // ----- everyone else -----

  /** A row `propose_action` inserts: no reserved key, a tier and a status that follow the type. */
  predicate IsProposal(s: Spec) {
    && s.tier == TierFor(s.action) > 0
    && TierKey !in s.payload && RevertOf !in s.payload
    && (s.emailId.None? ==> IsEmailLess(s.action))
  }

  function InitialStatus(a: ActionType): Status {
    if TierFor(a) == 3 && IsSendFamily(a) then CoolingOff
    else if TierFor(a) == 2 then PendingGrant
    else Pending
  }

  /** `window` is MAILBOT_COOLING_OFF_SECONDS; `asOf` is the clock as its caller read it earlier. */
  datatype Event =
    | Drain(d: nat, choice: Choice)
    | Revert(p: nat, id: nat)
    | Replay(p: nat, id: nat)
    | Continue(p: nat)
    | Propose(spec: Spec)
    | CoolingTick(asOf: int, window: nat)
    | Cancel(id: nat, asOf: int)
    | Promote(action: ActionType)
    | Advance(dt: nat)
    | Pause
    | Resume
    | SyncUpsert(email: string, marker: Option<string>)
    | SyncRemove(email: string)
    | UserMoves(email: string, to: Option<string>)

  predicate Enabled(q: Queue, e: Event) {
    match e
    case Drain(d, c) => CanDrain(q, d, c)
    case Revert(p, id) => p !in q.calls && IsRevertible(q, id)
    case Replay(p, id) => p !in q.calls && IsReplayable(q, id)
    case Continue(p) => p in q.calls
    case Propose(s) => IsProposal(s) && s.proposedAt <= q.now
    case CoolingTick(asOf, _) => asOf <= q.now
    case Cancel(_, asOf) => asOf <= q.now
    case _ => true
  }

  /** EMAIL_UPSERT never touches `deleted_at`, and a NULL marker never differs from a stored one. */
  function Upsert(emails: map<string, Email>, e: string, marker: Option<string>): map<string, Email> {
    if e !in emails then emails[e := Email(marker, false)]
    else if marker.None? then emails
    else emails[e := emails[e].(marker := marker)]
  }

  function RowsAfterEvent(rows: seq<Row>, e: Event): seq<Row> {
    match e
    case Propose(s) => rows + [NewRow(s, InitialStatus(s.action))]
    case CoolingTick(asOf, window) => PromoteDue(rows, asOf - window * SECOND)
    case Cancel(id, asOf) =>
      if id < |rows| && rows[id].status.CoolingOff?
      then rows[id := rows[id].(status := Cancelled, terminalAt := Some(asOf))] else rows
    case Promote(a) => PromoteGranted(rows, a)
    case _ => rows
  }

  function EmailsAfterEvent(emails: map<string, Email>, e: Event): map<string, Email> {
    match e
    case SyncUpsert(m, marker) => Upsert(emails, m, marker)
    case SyncRemove(m) => if m in emails then emails[m := emails[m].(deleted := true)] else emails
    case _ => emails
  }

  function MarksAfterEvent(q: Queue, e: Event): seq<Mark> {
    match e
    case SyncRemove(m) => if m in q.emails then q.marks + [Mark(m, true, None)] else q.marks
    case _ => q.marks
  }

  function UserMove(mailbox: map<string, string>, m: string, to: Option<string>): Move {
    Move(m, if m in mailbox then Some(mailbox[m]) else None, to, None)
  }

  function Step(q: Queue, grants: seq<Grant>, e: Event): Queue
    requires Enabled(q, e)
  {
    match e
    case Drain(d, c) => DrainStep(q, grants, d, c)
    case Revert(p, id) => q.(calls := q.calls[p := Reverting(id, q.rows[id].spec)])
    case Replay(p, id) => q.(calls := q.calls[p := Replaying(id, q.rows[id].spec)])
    case Continue(p) => CallStep(q, grants, p)
    case UserMoves(m, to) =>
      q.(mailbox := if to.Some? then q.mailbox[m := to.value] else q.mailbox - {m},
         moves := q.moves + [UserMove(q.mailbox, m, to)])
    case _ =>
      q.(now := if e.Advance? then q.now + e.dt else q.now,
         paused := if e.Pause? then true else if e.Resume? then false else q.paused,
         rows := RowsAfterEvent(q.rows, e),
         emails := EmailsAfterEvent(q.emails, e),
         marks := MarksAfterEvent(q, e))
  }
}
