/** The calls that feed, cancel, undo and authorize actions, statement by statement, with everybody
    else running in between. Each returns the steps it took itself (`own`), and, where its first read
    is not a step, when it made that read (`at`); what it answers is a function of the states these
    met. A call that raises is one that never takes its next step. */
module Verbs {
  import opened Actions
  import opened Timestamps
  import opened Tables
  import opened Database
  import opened Phrases
  import A = Approvals
  import S = System
  import Q = Queue
  import opened Reasons

  /** The step wrote none of the tables: neither rows nor history, emails, confirmations or grants. */
  predicate LeavesTables(m: Moment) {
    && S.Enabled(m.before, m.event)
    && var t := S.Step(m.before, m.event);
       && t.queue.rows == m.before.queue.rows && t.queue.history == m.before.queue.history
       && t.queue.emails == m.before.queue.emails
       && t.auth.confs == m.before.auth.confs && t.auth.grants == m.before.auth.grants
  }

  predicate AllLeaveTables(ms: seq<Moment>) { forall k | 0 <= k < |ms| :: LeavesTables(ms[k]) }

  // ----- propose, cool off, cancel -----

  datatype ProposeError =
    | Tier0NotQueueable | TierPromotionAttempt | InvalidPayload | EmailNotFound | EmailDeleted | EmailNeverSynced

  datatype ProposeOut = Proposed(id: nat) | ProposeRefused(error: ProposeError)

  /** The refusals that need no database. */
  function MalformedProposal(emailId: Option<string>, action: ActionType, payload: Payload)
    : (e: Option<ProposeError>)
    ensures e == Some(Tier0NotQueueable) <==> TierFor(action) == 0
    ensures e == Some(TierPromotionAttempt) <==> TierFor(action) > 0 && TierKey in payload
    ensures e == Some(InvalidPayload) <==>
            TierFor(action) > 0 && TierKey !in payload &&
            (RevertOf in payload || (emailId.None? && !IsEmailLess(action)))
    ensures e.Some? ==> e.value in {Tier0NotQueueable, TierPromotionAttempt, InvalidPayload}
  {
    if TierFor(action) == 0 then Some(Tier0NotQueueable)
    else if TierKey in payload then Some(TierPromotionAttempt)
    else if RevertOf in payload then Some(InvalidPayload)
    else if emailId.None? && !IsEmailLess(action) then Some(InvalidPayload)
    else None
  }

  /** `_capture_change_marker` */
  function MarkerRefusal(emails: map<string, Email>, id: string): (r: Option<ProposeError>)
    ensures r == Some(EmailNotFound) <==> id !in emails
    ensures r == Some(EmailDeleted) <==> id in emails && emails[id].deleted
    ensures r == Some(EmailNeverSynced) <==> id in emails && !emails[id].deleted && emails[id].marker.None?
    ensures r.None? <==> id in emails && !emails[id].deleted && emails[id].marker.Some?
  {
    if id !in emails then Some(EmailNotFound)
    else if emails[id].deleted then Some(EmailDeleted)
    else if emails[id].marker.None? then Some(EmailNeverSynced)
    else None
  }

  /** Sends cool off, what Tier 2 does otherwise waits for its grant, and the rest is ready. */
  predicate StartsAs(a: ActionType, status: Status) {
    && (status.CoolingOff? <==> a in {SendReply, SendNewEmail, SendForward, ReplyToInactiveThread})
    && (status.PendingGrant? <==> a in {Archive, MarkJunk, MoveToUserFolder, Unsubscribe, MoveToInbox})
    && (status.CoolingOff? || status.PendingGrant? || status.Pending?)
  }

  /** A row as `propose_action` makes it: of the type's tier, without a reserved key, in the status
      its type starts in, and with the marker of its email where Tier 3 compares it. */
  predicate IsProposed(row: Row, emailId: Option<string>, action: ActionType, payload: Payload, now: int) {
    && row == Row(row.spec, row.status, None, false, None, "") && StartsAs(action, row.status)
    && Q.IsProposal(row.spec)
    && row.spec.emailId == emailId && row.spec.action == action && row.spec.payload == payload
    && row.spec.proposedAt <= now
    && (TierFor(action) == 3 && emailId.Some? ==> row.spec.marker.Some?)
  }

  /** Every refusal in its order; the email is looked at for Tier 3 only. */
  function ProposalRefusal(emails: map<string, Email>, emailId: Option<string>, action: ActionType, payload: Payload)
    : (r: Option<ProposeError>)
  {
    if MalformedProposal(emailId, action, payload).Some? then MalformedProposal(emailId, action, payload)
    else if TierFor(action) == 3 && emailId.Some? then MarkerRefusal(emails, emailId.value)
    else None
  }

  /** The marker a Tier-3 row is compared with later. */
  function MarkerOf(emails: map<string, Email>, emailId: Option<string>, action: ActionType): Option<string> {
    if TierFor(action) == 3 && emailId.Some? && emailId.value in emails then emails[emailId.value].marker else None
  }

  /** What is proposed on an email passes the check on that email as long as it is there and, for Tier 3,
      has the marker it had; and for Tier 3 it fails it for drift as soon as it has another. */
  lemma ProposalStaysFine(
      emails: map<string, Email>, later: map<string, Email>, email: string, action: ActionType, payload: Payload,
      now: int)
    requires ProposalRefusal(emails, Some(email), action, payload).None?
    ensures var s := Spec(Some(email), action, TierFor(action), payload, now, MarkerOf(emails, Some(email), action));
            && (IsThere(later, email) && (TierFor(action) == 3 ==> later[email].marker == emails[email].marker) ==>
                  IsFine(later, s))
            && (IsThere(later, email) && TierFor(action) == 3 && later[email].marker != emails[email].marker ==>
                  HasDrifted(later, s))
            && (!IsThere(later, email) ==> IsGone(later, s))
  {
  }

  /** One insert of a row for these arguments and the marker as it was read, or a refusal for what the
      arguments and that read say, and nothing else. */
  predicate ProposeRan(
      read: S.Sys, own: seq<Moment>, emailId: Option<string>, action: ActionType, payload: Payload, r: ProposeOut)
  {
    var refusal := ProposalRefusal(read.queue.emails, emailId, action, payload);
    if refusal.Some? then r == ProposeRefused(refusal.value) && own == []
    else
      && |own| == 1 && r == Proposed(|own[0].before.queue.rows|)
      && own[0].event.Act? && own[0].event.event.Propose?
      && var s := own[0].event.event.spec;
         s == Spec(emailId, action, TierFor(action), payload, s.proposedAt,
                   MarkerOf(read.queue.emails, emailId, action))
  }

  /** A proposal is either refused, before anything is written, or the table's last row. */
  method ProposeAction(db: Database, emailId: Option<string>, action: ActionType, payload: Payload)
    returns (r: ProposeOut, ghost at: nat, ghost own: seq<Moment>)
    requires db.Valid()
    modifies db
    ensures db.Valid() && db.Continues(old(db.trace), old(db.state)) && db.Own() == old(db.Own()) + own
    ensures |old(db.trace)| <= at <= |db.trace| && ProposeRan(db.StateAt(at), own, emailId, action, payload, r)
    ensures r.Proposed? ==>
              |db.state.queue.rows| == r.id + 1 &&
              IsProposed(db.state.queue.rows[r.id], emailId, action, payload, db.state.queue.now)
  {
    hide Linked, Mine, SpecsStay, ProposeRan, MarkerRefusal, IsProposed;
    at, own := |db.trace|, [];
    ghost var read := db.state;
    var malformed := MalformedProposal(emailId, action, payload);
    if malformed.Some? {
      RefusedAtOnce(read, emailId, action, payload);
      return ProposeRefused(malformed.value), at, own;
    }
    var refusal, marker;
    refusal, marker, at := ReadMarker(db, emailId, action);
    read := db.StateAt(at);
    if refusal.Some? {
      RefusedForTheEmail(read, emailId, action, payload);
      return ProposeRefused(refusal.value), at, own;
    }
    r, own := InsertProposal(db, emailId, action, payload, marker, read);
    assert db.StateAt(at) == read;
  }

  lemma RefusedAtOnce(read: S.Sys, emailId: Option<string>, action: ActionType, payload: Payload)
    requires MalformedProposal(emailId, action, payload).Some?
    ensures var error := MalformedProposal(emailId, action, payload).value;
            ProposeRan(read, [], emailId, action, payload, ProposeRefused(error))
  {
  }

  lemma RefusedForTheEmail(read: S.Sys, emailId: Option<string>, action: ActionType, payload: Payload)
    requires MalformedProposal(emailId, action, payload).None? && TierFor(action) == 3 && emailId.Some?
    requires MarkerRefusal(read.queue.emails, emailId.value).Some?
    ensures var error := MarkerRefusal(read.queue.emails, emailId.value).value;
            ProposeRan(read, [], emailId, action, payload, ProposeRefused(error))
  {
  }

  /** `_capture_change_marker`, for Tier 3 on an email. */
  method ReadMarker(db: Database, emailId: Option<string>, action: ActionType)
    returns (refusal: Option<ProposeError>, marker: Option<string>, ghost at: nat)
    requires db.Valid()
    modifies db
    ensures db.Valid() && db.Continues(old(db.trace), old(db.state)) && db.Own() == old(db.Own())
    ensures |old(db.trace)| <= at <= |db.trace|
    ensures var emails := db.StateAt(at).queue.emails;
            && refusal == (if TierFor(action) == 3 && emailId.Some? then MarkerRefusal(emails, emailId.value) else None)
            && (refusal.None? ==> marker == MarkerOf(emails, emailId, action))
  {
    hide Linked, Mine, SpecsStay;
    refusal, marker := None, None;
    if TierFor(action) == 3 && emailId.Some? {
      db.Yield(Anyone);
      refusal := MarkerRefusal(db.state.queue.emails, emailId.value);
      if refusal.None? { marker := db.state.queue.emails[emailId.value].marker; }
    }
    at := |db.trace|;
  }

  method InsertProposal(
      db: Database, emailId: Option<string>, action: ActionType, payload: Payload, marker: Option<string>,
      ghost read: S.Sys)
    returns (r: ProposeOut, ghost own: seq<Moment>)
    requires db.Valid() && ProposalRefusal(read.queue.emails, emailId, action, payload).None?
    requires marker == MarkerOf(read.queue.emails, emailId, action)
    modifies db
    ensures db.Valid() && db.Continues(old(db.trace), old(db.state)) && db.Own() == old(db.Own()) + own
    ensures ProposeRan(read, own, emailId, action, payload, r)
    ensures r.Proposed? && |db.state.queue.rows| == r.id + 1
    ensures IsProposed(db.state.queue.rows[r.id], emailId, action, payload, db.state.queue.now)
  {
    hide Linked, Mine, SpecsStay;
    db.Yield(Anyone);
    var id;
    id, own := InsertAction(db, Spec(emailId, action, TierFor(action), payload, db.state.queue.now, marker));
    r := Proposed(id);
  }

  method InsertAction(db: Database, s: Spec) returns (id: nat, ghost own: seq<Moment>)
    requires db.Valid() && Q.IsProposal(s) && s.proposedAt <= db.state.queue.now
    modifies db
    ensures db.Valid() && db.Continues(old(db.trace), old(db.state)) && db.Own() == old(db.Own()) + own
    ensures |own| == 1 && own[0].event == S.Act(Q.Propose(s)) && |own[0].before.queue.rows| == id
    ensures |db.state.queue.rows| == id + 1 && s.proposedAt <= db.state.queue.now
    ensures db.state.queue.rows[id] == NewRow(s, Q.InitialStatus(s.action))
  {
    hide Linked, Mine, SpecsStay;
    db.Yield(Anyone);
    own := [Moment(db.state, S.Act(Q.Propose(s)), true)];
    db.Do(S.Act(Q.Propose(s)));
    id := |db.state.queue.rows| - 1;
  }

  /** `cooling_off_tick`: the cutoff is read first; the one update then leaves no row due at it. */
  method CoolingOffTick(db: Database, window: nat) returns (cutoff: int, ghost own: seq<Moment>)
    requires db.Valid()
    modifies db
    ensures db.Valid() && db.Continues(old(db.trace), old(db.state)) && db.Own() == old(db.Own()) + own
    ensures |own| == 1 && own[0].event == S.Act(Q.CoolingTick(cutoff + window * SECOND, window))
    ensures cutoff + window * SECOND <= db.state.queue.now
    ensures forall i | 0 <= i < |db.state.queue.rows| :: !IsDue(db.state.queue.rows[i], cutoff)
  {
    hide Linked, Mine, SpecsStay;
    db.Yield(Anyone);
    var now := db.state.queue.now;
    cutoff := now - window * SECOND;
    db.Yield(Anyone);
    own := [Moment(db.state, S.Act(Q.CoolingTick(now, window)), true)];
    db.Do(S.Act(Q.CoolingTick(now, window)));
  }

  /** `cancel_action`: wins exactly when the row is still cooling off at its one guarded update. */
  method CancelAction(db: Database, id: nat) returns (cancelled: bool, ghost own: seq<Moment>)
    requires db.Valid()
    modifies db
    ensures db.Valid() && db.Continues(old(db.trace), old(db.state)) && db.Own() == old(db.Own()) + own
    ensures |own| == 1 && own[0].event.Act? && own[0].event.event.Cancel? && own[0].event.event.id == id
    ensures var was := own[0].before.queue.rows;
            && (cancelled <==> id < |was| && was[id].status.CoolingOff?)
            && |db.state.queue.rows| == |was|
            && forall i | 0 <= i < |was| ::
                 if i == id && cancelled then db.state.queue.rows[i].status.Cancelled?
                 else db.state.queue.rows[i] == was[i]
  {
    hide Linked, Mine, SpecsStay;
    db.Yield(Anyone);
    var now := db.state.queue.now;
    db.Yield(Anyone);
    cancelled := id < |db.state.queue.rows| && db.state.queue.rows[id].status.CoolingOff?;
    own := [Moment(db.state, S.Act(Q.Cancel(id, now)), true)];
    db.Do(S.Act(Q.Cancel(id, now)));
  }

  // ----- revert -----

  datatype RevertError =
    | ActionNotFound | OnlyTier1Revertible | NotApplied | RevertWindowExpired
    | AlreadyReverted | InverseUnavailable | PreStateMissing

  datatype RevertOut = Reverted(row: nat) | RevertRefused(error: RevertError)

  function RevertRefusal(q: Q.Queue, id: nat): (e: Option<RevertError>)
    ensures e.None? <==> Q.IsRevertible(q, id)
    ensures e == Some(ActionNotFound) <==> id >= |q.rows|
    ensures e == Some(OnlyTier1Revertible) <==> id < |q.rows| && q.rows[id].spec.tier != 1
    ensures e == Some(NotApplied) <==> id < |q.rows| && q.rows[id].spec.tier == 1 && !q.rows[id].status.Applied?
    ensures e == Some(RevertWindowExpired) <==>
            id < |q.rows| && q.rows[id].spec.tier == 1 && q.rows[id].status.Applied? &&
            (q.rows[id].terminalAt.None? || q.now - q.rows[id].terminalAt.value > 24 * HOUR)
    ensures e.Some? ==> e.value in {ActionNotFound, OnlyTier1Revertible, NotApplied, RevertWindowExpired}
  {
    if id >= |q.rows| then Some(ActionNotFound)
    else if q.rows[id].spec.tier != 1 then Some(OnlyTier1Revertible)
    else if !q.rows[id].status.Applied? then Some(NotApplied)
    else if q.rows[id].terminalAt.None? || q.now - q.rows[id].terminalAt.value > REVERT_WINDOW then
      Some(RevertWindowExpired)
    else None
  }

  /** The inverse of a row: back to a folder, or the opposite mark. */
  predicate Undoes(inverse: Spec, s: Spec, id: nat) {
    && inverse.tier == 1 && inverse.emailId == s.emailId && inverse.marker.None?
    && if IsMoveFamily(s.action) then
         && inverse.action == s.action && inverse.payload.Keys == {DestinationFolder, RevertOf}
         && inverse.payload[RevertOf] == Number(id) && HasText(inverse.payload, DestinationFolder)
       else IsOpposite(s.action, inverse.action) && inverse.payload == s.payload
  }

  /** `_extract_source_folder_id` */
  function SourceFolder(h: Option<History>): Option<string> {
    if h.Some? && h.value.pre.Some? && h.value.pre.value != "" then h.value.pre else None
  }

  /** The refusals after the history has been read. */
  function InverseRefusal(s: Spec, h: Option<History>): Option<RevertError> {
    if h.Some? && h.value.revertedAt.Some? then Some(AlreadyReverted)
    else if IsMoveFamily(s.action) then
      if SourceFolder(h).None? then Some(PreStateMissing)
      else if TierFor(s.action) != 1 then Some(InverseUnavailable)
      else None
    else if StaticInverse(s.action).None? then Some(InverseUnavailable)
    else None
  }

  lemma RevertResolves(q: Q.Queue, grants: seq<Grant>, id: nat, s: Spec)
    ensures var h := Q.HistoryOf(q.history, id);
            var next := Q.CallNext(q, grants, Q.Reverting(id, s));
            if InverseRefusal(s, h).Some? then next.None?
            else && next == Some(Q.Resolved(id, Q.InverseOf(s, id, h, q.now).value, h.Some?))
                 && Undoes(Q.InverseOf(s, id, h, q.now).value, s, id)
  {
  }

  predicate IsCall(s: S.Sys, p: nat, c: Q.Call) { p in s.queue.calls && s.queue.calls[p] == c }

  function Next(p: nat): S.Event { S.Act(Q.Continue(p)) }

  /** The call's next statement. */
  method Proceed(db: Database, p: nat)
    requires db.Valid() && p in db.state.queue.calls
    modifies db
    ensures db.Valid() && db.Continues(old(db.trace), old(db.state))
    ensures db.Own() == old(db.Own()) + [Moment(old(db.state), Next(p), true)]
    ensures var next := Q.CallNext(old(db.state.queue), old(db.state.auth.grants), old(db.state.queue.calls)[p]);
            if next.Some? then IsCall(db.state, p, next.value) else p !in db.state.queue.calls
    ensures db.state.queue.rows == Q.RowsAfterCall(old(db.state.queue.rows), old(db.state.queue.calls)[p])
  {
    hide Linked, Mine, SpecsStay;
    db.Do(Next(p));
  }

  /** Of a call's statements only these write: the placeholder, the claim that wins, the insert, and the
      reset that finds the row failed. */
  predicate IsRead(s: S.Sys, p: nat)
    requires p in s.queue.calls
  {
    match s.queue.calls[p]
    case Resolved(_, _, had) => had
    case Claiming(id, _) => !Q.IsUnreverted(s.queue.history, id)
    case Inverting(_, _) => false
    case Resetting(id) => !(id < |s.queue.rows| && s.queue.rows[id].status.Failed?)
    case _ => true
  }

  lemma ReadsLeaveTables(s: S.Sys, p: nat)
    requires p in s.queue.calls && IsRead(s, p)
    ensures LeavesTables(Moment(s, Next(p), true))
  {
  }

  lemma StartLeavesTables(s: S.Sys, e: S.Event)
    requires S.Enabled(s, e) && ((e.Act? && (e.event.Revert? || e.event.Replay?)) || e.Ask?)
    ensures LeavesTables(Moment(s, e, true))
  {
  }

  /** `revert_action` up to the resolved inverse: the row's refusals, then those of its history. */
  predicate ResolveRan(read: S.Sys, own: seq<Moment>, p: nat, id: nat, error: Option<RevertError>) {
    if RevertRefusal(read.queue, id).Some? then error == RevertRefusal(read.queue, id) && own == []
    else
      && |own| == 2 && own[0] == Moment(read, S.Act(Q.Revert(p, id)), true) && own[1].event == Next(p)
      && AllLeaveTables(own)
      && error == InverseRefusal(read.queue.rows[id].spec, Q.HistoryOf(own[1].before.queue.history, id))
  }

  /** The inverse that the call has resolved, and whether it found a history row. */
  function ResolvedBy(own: seq<Moment>, p: nat, id: nat, s: Spec): Q.Call
    requires |own| == 2
  {
    var q := own[1].before.queue;
    var h := Q.HistoryOf(q.history, id);
    var inverse := Q.InverseOf(s, id, h, q.now);
    Q.Resolved(id, if inverse.Some? then inverse.value else s, h.Some?)
  }

  method ResolveInverse(db: Database, p: nat, id: nat)
    returns (error: Option<RevertError>, ghost at: nat, ghost own: seq<Moment>)
    requires db.Valid() && p !in db.state.queue.calls
    modifies db
    ensures db.Valid() && db.Continues(old(db.trace), old(db.state)) && db.Own() == old(db.Own()) + own
    ensures |old(db.trace)| <= at <= |db.trace| && ResolveRan(db.StateAt(at), own, p, id, error)
    ensures if error.Some? then p !in db.state.queue.calls
            else var s := own[0].before.queue.rows[id].spec;
                 var c := ResolvedBy(own, p, id, s);
                 IsCall(db.state, p, c) && Undoes(c.inverse, s, id)
  {
    hide Linked, Mine, SpecsStay, LeavesTables, Undoes;
    db.Yield(Caller(p));
    at, own := |db.trace|, [];
    error := RevertRefusal(db.state.queue, id);
    if error.Some? { return; }
    var s := db.state.queue.rows[id].spec;
    ghost var first := Moment(db.state, S.Act(Q.Revert(p, id)), true);
    StartLeavesTables(db.state, S.Act(Q.Revert(p, id)));
    db.Do(S.Act(Q.Revert(p, id)));
    db.Yield(Caller(p));
    own := [first, Moment(db.state, Next(p), true)];
    ReadsLeaveTables(db.state, p);
    error := InverseRefusal(s, Q.HistoryOf(db.state.queue.history, id));
    RevertResolves(db.state.queue, db.state.auth.grants, id, s);
    Proceed(db, p);
  }

  /** `revert_action` from there, up to its claim, which writes at most the placeholder history row
      unless it wins. */
  predicate TryRan(own: seq<Moment>, p: nat, id: nat, claimed: bool) {
    && |own| == 2 && own[0].event == own[1].event == Next(p)
    && S.Enabled(own[0].before, own[0].event)
    && S.Step(own[0].before, own[0].event).queue.rows == own[0].before.queue.rows
    && (claimed <==> Q.IsUnreverted(own[1].before.queue.history, id))
    && (!claimed ==> LeavesTables(own[1]))
  }

  method InsertPlaceholder(db: Database, p: nat, id: nat, ghost inverse: Spec, ghost had: bool)
    returns (ghost own: seq<Moment>)
    requires db.Valid() && IsCall(db.state, p, Q.Resolved(id, inverse, had))
    modifies db
    ensures db.Valid() && db.Continues(old(db.trace), old(db.state)) && db.Own() == old(db.Own()) + own
    ensures |own| == 1 && own[0].event == Next(p) && S.Enabled(own[0].before, own[0].event)
    ensures S.Step(own[0].before, own[0].event).queue.rows == own[0].before.queue.rows
    ensures IsCall(db.state, p, Q.Claiming(id, inverse))
  {
    hide Linked, Mine, SpecsStay;
    db.Yield(Caller(p));
    own := [Moment(db.state, Next(p), true)];
    PlaceholderLeavesRows(db.state, p);
    Proceed(db, p);
  }

  method ClaimRevert(db: Database, p: nat, id: nat, ghost inverse: Spec, ghost had: bool)
    returns (claimed: bool, ghost own: seq<Moment>)
    requires db.Valid() && IsCall(db.state, p, Q.Resolved(id, inverse, had))
    modifies db
    ensures db.Valid() && db.Continues(old(db.trace), old(db.state)) && db.Own() == old(db.Own()) + own
    ensures TryRan(own, p, id, claimed)
    ensures if claimed then IsCall(db.state, p, Q.Inverting(id, inverse)) else p !in db.state.queue.calls
  {
    hide Linked, Mine, SpecsStay, LeavesTables, S.Step, S.Enabled;
    own := InsertPlaceholder(db, p, id, inverse, had);
    db.Yield(Caller(p));
    own := own + [Moment(db.state, Next(p), true)];
    claimed := Q.IsUnreverted(db.state.queue.history, id);
    if !claimed { ReadsLeaveTables(db.state, p); }
    Proceed(db, p);
  }

  lemma PlaceholderLeavesRows(s: S.Sys, p: nat)
    requires p in s.queue.calls && s.queue.calls[p].Resolved?
    ensures S.Enabled(s, Next(p)) && S.Step(s, Next(p)).queue.rows == s.queue.rows
  {
  }

  /** The claim comes before the insert, and only its winner inserts. */
  predicate ClaimRan(own: seq<Moment>, p: nat, id: nat, r: RevertOut) {
    && |own| >= 2 && TryRan(own[..2], p, id, r.Reverted?)
    && match r
       case Reverted(row) => |own| == 3 && own[2].event == Next(p) && row == |own[2].before.queue.rows|
       case RevertRefused(error) => |own| == 2 && error == AlreadyReverted
  }

  method ClaimAndInvert(db: Database, p: nat, id: nat, ghost inverse: Spec, ghost had: bool)
    returns (r: RevertOut, ghost own: seq<Moment>)
    requires db.Valid() && IsCall(db.state, p, Q.Resolved(id, inverse, had))
    modifies db
    ensures db.Valid() && db.Continues(old(db.trace), old(db.state)) && db.Own() == old(db.Own()) + own
    ensures p !in db.state.queue.calls && ClaimRan(own, p, id, r)
    ensures r.Reverted? ==> |db.state.queue.rows| == r.row + 1 && db.state.queue.rows[r.row] == NewRow(inverse, Pending)
  {
    hide Linked, Mine, SpecsStay, TryRan;
    var claimed;
    claimed, own := ClaimRevert(db, p, id, inverse, had);
    assert own[..2] == own by { TryIsTwo(own, p, id, claimed); }
    if !claimed { return RevertRefused(AlreadyReverted), own; }
    db.Yield(Caller(p));
    ghost var insert := Moment(db.state, Next(p), true);
    Proceed(db, p);
    assert (own + [insert])[..2] == own;
    own := own + [insert];
    r := Reverted(|db.state.queue.rows| - 1);
  }

  lemma TryIsTwo(own: seq<Moment>, p: nat, id: nat, claimed: bool)
    requires TryRan(own, p, id, claimed)
    ensures |own| == 2
  {
  }

  /** The answer is the first refusal the call's reads meet, the loss of its claim, or the row it
      queued. */
  predicate RevertRan(read: S.Sys, own: seq<Moment>, p: nat, id: nat, r: RevertOut) {
    var refusal := RevertRefusal(read.queue, id);
    if refusal.Some? then r == RevertRefused(refusal.value) && own == []
    else
      && |own| >= 2
      && var refusal := InverseRefusal(read.queue.rows[id].spec, Q.HistoryOf(own[1].before.queue.history, id));
         && ResolveRan(read, own[..2], p, id, refusal)
         && if refusal.Some? then |own| == 2 && r == RevertRefused(refusal.value) else ClaimRan(own[2..], p, id, r)
  }

  method RevertAction(db: Database, p: nat, id: nat) returns (r: RevertOut, ghost at: nat, ghost own: seq<Moment>)
    requires db.Valid() && p !in db.state.queue.calls
    modifies db
    ensures db.Valid() && db.Continues(old(db.trace), old(db.state)) && db.Own() == old(db.Own()) + own
    ensures p !in db.state.queue.calls && |old(db.trace)| <= at <= |db.trace|
    ensures RevertRan(db.StateAt(at), own, p, id, r)
    ensures r.Reverted? ==>
              && |db.state.queue.rows| == r.row + 1
              && db.state.queue.rows[r.row] == NewRow(db.state.queue.rows[r.row].spec, Pending)
              && id < |db.StateAt(at).queue.rows|
              && Undoes(db.state.queue.rows[r.row].spec, db.StateAt(at).queue.rows[id].spec, id)
  {
    hide Linked, Mine, SpecsStay, ResolveRan, ClaimRan, Undoes;
    var error;
    error, at, own := ResolveInverse(db, p, id);
    ResolveSays(db.StateAt(at), own, p, id, error);
    if error.Some? {
      assert |own| == 2 ==> own[..2] == own;
      return RevertRefused(error.value), at, own;
    }
    ghost var read, first := db.StateAt(at), own;
    ghost var c := ResolvedBy(own, p, id, read.queue.rows[id].spec);
    ghost var rest;
    r, rest := ClaimAndInvert(db, p, id, c.inverse, c.hadHistory);
    own := first + rest;
    assert own[..2] == first && own[2..] == rest && db.StateAt(at) == read;
  }

  lemma ResolveSays(read: S.Sys, own: seq<Moment>, p: nat, id: nat, error: Option<RevertError>)
    requires ResolveRan(read, own, p, id, error)
    ensures RevertRefusal(read.queue, id).Some? ==> own == [] && error == RevertRefusal(read.queue, id)
    ensures RevertRefusal(read.queue, id).None? ==>
              && id < |read.queue.rows| && |own| == 2 && own[0].before == read
              && error == InverseRefusal(read.queue.rows[id].spec, Q.HistoryOf(own[1].before.queue.history, id))
  {
  }

  // ----- replay -----

  datatype ReplayError = NoSuchAction | ActionNotFailed | ReplayWindowExpired | GrantInvalid | ReplayMoveTargetDeleted

  function ReplayRefusal(q: Q.Queue, id: nat): (e: Option<ReplayError>)
    ensures e.None? <==> Q.IsReplayable(q, id)
    ensures e == Some(NoSuchAction) <==> id >= |q.rows|
    ensures e == Some(ActionNotFailed) <==> id < |q.rows| && !q.rows[id].status.Failed?
    ensures e == Some(ReplayWindowExpired) <==>
            id < |q.rows| && q.rows[id].status.Failed? &&
            (q.rows[id].terminalAt.None? || q.now - q.rows[id].terminalAt.value > 7 * DAY)
    ensures e.Some? ==> e.value in {NoSuchAction, ActionNotFailed, ReplayWindowExpired}
  {
    if id >= |q.rows| then Some(NoSuchAction)
    else if !q.rows[id].status.Failed? then Some(ActionNotFailed)
    else if q.rows[id].terminalAt.None? || q.now - q.rows[id].terminalAt.value > REPLAY_WINDOW then
      Some(ReplayWindowExpired)
    else None
  }

  predicate IsMovedAway(emails: map<string, Email>, s: Spec) {
    IsMoveFamily(s.action) && s.emailId.Some? && s.emailId.value in emails && emails[s.emailId.value].deleted
  }

  /** The clock of `is_grant_valid` and its scan, for an action that needs a grant. */
  predicate GrantRan(own: seq<Moment>, p: nat, s: Spec, ok: bool) {
    && AllLeaveTables(own) && (forall k | 0 <= k < |own| :: own[k].event == Next(p))
    && if !RequiresGrant(s.action) then |own| == 1 && ok
       else && |own| == 2
            && (ok <==> FindGrant(own[1].before.auth.grants, s.action, s.emailId, own[0].before.queue.now).Some?)
  }

  method CheckReplayGrant(db: Database, p: nat, id: nat, s: Spec) returns (ok: bool, ghost own: seq<Moment>)
    requires db.Valid() && IsCall(db.state, p, Q.Replaying(id, s))
    modifies db
    ensures db.Valid() && db.Continues(old(db.trace), old(db.state)) && db.Own() == old(db.Own()) + own
    ensures GrantRan(own, p, s, ok)
    ensures if ok then IsCall(db.state, p, Q.Granted(id, s)) else p !in db.state.queue.calls
  {
    hide Linked, Mine, SpecsStay, LeavesTables, FindGrant;
    db.Yield(Caller(p));
    var now := db.state.queue.now;
    own, ok := [Moment(db.state, Next(p), true)], true;
    ReadsLeaveTables(db.state, p);
    Proceed(db, p);
    if !RequiresGrant(s.action) { return; }
    db.Yield(Caller(p));
    own := own + [Moment(db.state, Next(p), true)];
    ReadsLeaveTables(db.state, p);
    ok := FindGrant(db.state.auth.grants, s.action, s.emailId, now).Some?;
    Proceed(db, p);
  }

  /** The look at the email, and the guarded reset. */
  predicate ResetRan(own: seq<Moment>, p: nat, id: nat, s: Spec, error: Option<ReplayError>) {
    && |own| >= 1 && own[0].event == Next(p) && LeavesTables(own[0])
    && if IsMovedAway(own[0].before.queue.emails, s) then |own| == 1 && error == Some(ReplayMoveTargetDeleted)
       else
         && |own| == 2 && own[1].event == Next(p)
         && var rows := own[1].before.queue.rows;
            if id < |rows| && rows[id].status.Failed? then error.None?
            else error == Some(ActionNotFailed) && LeavesTables(own[1])
  }

  method LookForTarget(db: Database, p: nat, id: nat, s: Spec) returns (gone: bool, ghost own: seq<Moment>)
    requires db.Valid() && IsCall(db.state, p, Q.Granted(id, s))
    modifies db
    ensures db.Valid() && db.Continues(old(db.trace), old(db.state)) && db.Own() == old(db.Own()) + own
    ensures |own| == 1 && own[0].event == Next(p) && LeavesTables(own[0])
    ensures gone <==> IsMovedAway(own[0].before.queue.emails, s)
    ensures if gone then p !in db.state.queue.calls else IsCall(db.state, p, Q.Resetting(id))
  {
    hide Linked, Mine, SpecsStay, LeavesTables;
    db.Yield(Caller(p));
    own := [Moment(db.state, Next(p), true)];
    ReadsLeaveTables(db.state, p);
    gone := IsMovedAway(db.state.queue.emails, s);
    Proceed(db, p);
  }

  method ResetFailed(db: Database, p: nat, id: nat, s: Spec)
    returns (error: Option<ReplayError>, ghost own: seq<Moment>)
    requires db.Valid() && IsCall(db.state, p, Q.Granted(id, s))
    modifies db
    ensures db.Valid() && db.Continues(old(db.trace), old(db.state)) && db.Own() == old(db.Own()) + own
    ensures p !in db.state.queue.calls && ResetRan(own, p, id, s, error)
    ensures error.None? ==>
              && id < |db.state.queue.rows|
              && db.state.queue.rows[id].status.Pending? && db.state.queue.rows[id].terminalAt.None?
  {
    hide Linked, Mine, SpecsStay, LeavesTables;
    var gone;
    gone, own := LookForTarget(db, p, id, s);
    if gone { return Some(ReplayMoveTargetDeleted), own; }
    db.Yield(Caller(p));
    own := own + [Moment(db.state, Next(p), true)];
    var won := id < |db.state.queue.rows| && db.state.queue.rows[id].status.Failed?;
    if !won { ReadsLeaveTables(db.state, p); }
    Proceed(db, p);
    error := if won then None else Some(ActionNotFailed);
  }

  /** The answer is the first refusal the call's reads meet, or None exactly if the one guarded reset
      found the row failed; when it refuses it has written nothing. */
  predicate ReplayRan(read: S.Sys, own: seq<Moment>, p: nat, id: nat, error: Option<ReplayError>) {
    if ReplayRefusal(read.queue, id).Some? then error == ReplayRefusal(read.queue, id) && own == []
    else
      var s := read.queue.rows[id].spec;
      var n := if RequiresGrant(s.action) then 3 else 2;
      && |own| >= n && own[0] == Moment(read, S.Act(Q.Replay(p, id)), true) && LeavesTables(own[0])
      && GrantRan(own[1..n], p, s, error != Some(GrantInvalid))
      && if error == Some(GrantInvalid) then |own| == n else ResetRan(own[n..], p, id, s, error)
  }

  /** The first read, and with it the row that the call goes on with. */
  method BeginReplay(db: Database, p: nat, id: nat)
    returns (error: Option<ReplayError>, s: Spec, ghost at: nat, ghost own: seq<Moment>)
    requires db.Valid() && p !in db.state.queue.calls
    modifies db
    ensures db.Valid() && db.Continues(old(db.trace), old(db.state)) && db.Own() == old(db.Own()) + own
    ensures |old(db.trace)| <= at <= |db.trace| && error == ReplayRefusal(db.StateAt(at).queue, id)
    ensures if error.Some? then own == [] && p !in db.state.queue.calls
            else && own == [Moment(db.StateAt(at), S.Act(Q.Replay(p, id)), true)] && LeavesTables(own[0])
                 && s == db.StateAt(at).queue.rows[id].spec && IsCall(db.state, p, Q.Replaying(id, s))
  {
    hide Linked, Mine, SpecsStay, LeavesTables;
    db.Yield(Caller(p));
    at, own, s := |db.trace|, [], Spec(None, ReadSql, 0, map[], 0, None);
    error := ReplayRefusal(db.state.queue, id);
    if error.Some? { return; }
    s := db.state.queue.rows[id].spec;
    own := [Moment(db.state, S.Act(Q.Replay(p, id)), true)];
    StartLeavesTables(db.state, S.Act(Q.Replay(p, id)));
    db.Do(S.Act(Q.Replay(p, id)));
  }

  /** `replay_action`: a success leaves the row as the reset left it. */
  method ReplayAction(db: Database, p: nat, id: nat)
    returns (error: Option<ReplayError>, ghost at: nat, ghost own: seq<Moment>)
    requires db.Valid() && p !in db.state.queue.calls
    modifies db
    ensures db.Valid() && db.Continues(old(db.trace), old(db.state)) && db.Own() == old(db.Own()) + own
    ensures p !in db.state.queue.calls && |old(db.trace)| <= at <= |db.trace|
    ensures ReplayRan(db.StateAt(at), own, p, id, error)
    ensures error.None? ==>
              && id < |db.state.queue.rows|
              && db.state.queue.rows[id].status.Pending? && db.state.queue.rows[id].terminalAt.None?
  {
    hide Linked, Mine, SpecsStay, LeavesTables, ResetRan, GrantRan, ReplayRan;
    var s, ok;
    error, s, at, own := BeginReplay(db, p, id);
    ghost var read, first, second, third := db.StateAt(at), own, [], [];
    if error.Some? {
      ReplayRefused(read, p, id, error);
      return;
    }
    ok, second := CheckReplayGrant(db, p, id, s);
    error := Some(GrantInvalid);
    if ok {
      error, third := ResetFailed(db, p, id, s);
      NeverGrantInvalid(third, p, id, s, error);
    }
    own := first + second + third;
    ReplayComposes(read, first[0], second, third, p, id, error);
  }

  lemma ReplayRefused(read: S.Sys, p: nat, id: nat, error: Option<ReplayError>)
    requires error.Some? && error == ReplayRefusal(read.queue, id)
    ensures ReplayRan(read, [], p, id, error)
  {
  }

  lemma ReplayComposes(
      read: S.Sys, first: Moment, second: seq<Moment>, third: seq<Moment>, p: nat, id: nat, error: Option<ReplayError>)
    requires ReplayRefusal(read.queue, id).None?
    requires first == Moment(read, S.Act(Q.Replay(p, id)), true) && LeavesTables(first)
    requires GrantRan(second, p, read.queue.rows[id].spec, error != Some(GrantInvalid))
    requires if error == Some(GrantInvalid) then third == []
             else ResetRan(third, p, id, read.queue.rows[id].spec, error)
    ensures ReplayRan(read, [first] + second + third, p, id, error)
  {
    hide LeavesTables, ResetRan, FindGrant;
    var own := [first] + second + third;
    assert own[1..1 + |second|] == second && own[1 + |second|..] == third;
  }

  lemma NeverGrantInvalid(own: seq<Moment>, p: nat, id: nat, s: Spec, error: Option<ReplayError>)
    requires ResetRan(own, p, id, s, error)
    ensures error != Some(GrantInvalid)
  {
  }

  // ----- grants -----

  datatype MintError = GrantNotNeeded | ExpiresAtInPast | GrantWindowTooLarge | BatchTooLarge | NeedsUserConfirmation
  datatype MintOut = Minted(grant: nat) | MintRefused(error: MintError)

  function MintRefusal(action: ActionType, ids: seq<string>, expiry: Stamp, now: int): (e: Option<MintError>)
    ensures e.None? <==> S.IsMintable(action, ids, expiry, now)
    ensures e.None? <==> TierFor(action) >= 2 && now < expiry.instant <= now + 24 * HOUR && |ids| <= 200
    ensures e == Some(GrantNotNeeded) <==> TierFor(action) < 2
    ensures e == Some(ExpiresAtInPast) <==> TierFor(action) >= 2 && expiry.instant <= now
    ensures e == Some(GrantWindowTooLarge) <==> TierFor(action) >= 2 && expiry.instant > now + 24 * HOUR
    ensures e != Some(NeedsUserConfirmation)
  {
    if TierFor(action) < 2 then Some(GrantNotNeeded)
    else if expiry.instant <= now then Some(ExpiresAtInPast)
    else if expiry.instant > now + MAX_GRANT_WINDOW then Some(GrantWindowTooLarge)
    else if |ids| > MAX_BATCH_SIZE then Some(BatchTooLarge)
    else None
  }

  predicate IsMint(s: S.Sys, m: nat, mint: S.Mint) { m in s.auth.mints && s.auth.mints[m] == mint }

  /** The newest unconsumed confirmation of the action and ids. */
  predicate IsNewest(confs: seq<S.Conf>, i: nat, action: ActionType, ids: seq<string>) {
    && i < |confs| && S.Matches(confs[i], action, ids)
    && forall j | i < j < |confs| :: !S.Matches(confs[j], action, ids)
  }

  /** The newest unconsumed confirmation of these ids, if it is less than ten minutes old. */
  function FreshConf(s: S.Sys, action: ActionType, ids: seq<string>): (c: Option<nat>)
    ensures c.Some? ==> IsNewest(s.auth.confs, c.value, action, Canonical(ids))
    ensures forall k: nat | IsNewest(s.auth.confs, k, action, Canonical(ids)) ::
              c == Some(k) <==> s.queue.now - s.auth.confs[k].createdAt < 10 * MINUTE
  {
    var c := S.FindConf(s.auth.confs, action, Canonical(ids));
    if c.Some? && s.queue.now < s.auth.confs[c.value].createdAt + CONFIRMATION_TTL then c else None
  }

  predicate IsUnconsumed(s: S.Sys, conf: nat) { conf < |s.auth.confs| && s.auth.confs[conf].consumedAt.None? }

  /** The next statement of a mint before its insert. */
  method NextStatement(db: Database, m: nat)
    requires db.Valid() && m in db.state.auth.mints && !db.state.auth.mints[m].stage.Consumed?
    modifies db
    ensures db.Valid() && db.Continues(old(db.trace), old(db.state))
    ensures db.Own() == old(db.Own()) + [Moment(old(db.state), S.MintNext(m), true)]
    ensures var next := S.MintAfter(old(db.state.auth), S.MintNext(m), old(db.state.auth.mints)[m],
                                    old(db.state.queue.now));
            if next.Some? then IsMint(db.state, m, next.value) else m !in db.state.auth.mints
  {
    hide Linked, Mine, SpecsStay;
    db.Do(S.MintNext(m));
  }

  /** A mint writes nothing while it only looks, or loses the confirmation it found. */
  lemma LooksLeaveTables(s: S.Sys, m: nat)
    requires m in s.auth.mints
    requires s.auth.mints[m].stage.Validated? || (s.auth.mints[m].stage.Found? &&
        !IsUnconsumed(s, s.auth.mints[m].conf))
    ensures LeavesTables(Moment(s, S.MintNext(m), true))
  {
  }

  /** Find the newest, check its age, and win the single-use update: the call goes on exactly if it
      finds one and nobody has consumed it by then. */
  predicate ConsumeRan(own: seq<Moment>, m: nat, action: ActionType, ids: seq<string>, conf: Option<nat>) {
    && |own| >= 1 && own[0].event == S.MintNext(m) && LeavesTables(own[0])
    && var found := FreshConf(own[0].before, action, ids);
       if found.None? then |own| == 1 && conf.None?
       else
         && |own| == 2 && own[1].event == S.MintNext(m)
         && if IsUnconsumed(own[1].before, found.value) then conf == found else conf.None? && LeavesTables(own[1])
  }

  /** `_consume` */
  method ConsumeConfirmation(db: Database, m: nat, mint: S.Mint) returns (conf: Option<nat>, ghost own: seq<Moment>)
    requires db.Valid() && IsMint(db.state, m, mint) && mint.stage.Validated?
    modifies db
    ensures db.Valid() && db.Continues(old(db.trace), old(db.state)) && db.Own() == old(db.Own()) + own
    ensures ConsumeRan(own, m, mint.action, mint.ids, conf)
    ensures if conf.Some? then IsMint(db.state, m, mint.(stage := S.Consumed, conf := conf.value))
            else m !in db.state.auth.mints
  {
    hide Linked, Mine, SpecsStay, LeavesTables, Canonical;
    db.Yield(Minter(m));
    own := [Moment(db.state, S.MintNext(m), true)];
    LooksLeaveTables(db.state, m);
    conf := FreshConf(db.state, mint.action, mint.ids);
    NextStatement(db, m);
    if conf.None? { return; }
    db.Yield(Minter(m));
    own := own + [Moment(db.state, S.MintNext(m), true)];
    var won := IsUnconsumed(db.state, conf.value);
    if !won { LooksLeaveTables(db.state, m); }
    NextStatement(db, m);
    if !won { conf := None; }
  }

  /** The answer is the first structural refusal, or for want of a confirmation of these very ids; when
      it refuses it has written nothing, so no confirmation is spent. */
  predicate MintRan(
      read: S.Sys, own: seq<Moment>, m: nat, action: ActionType, ids: seq<string>, expiry: Stamp, r: MintOut)
  {
    var refusal := MintRefusal(action, ids, expiry, read.queue.now);
    if refusal.Some? then r == MintRefused(refusal.value) && own == []
    else
      && |own| >= 2 && own[0] == Moment(read, S.Ask(m, action, ids, expiry), true) && LeavesTables(own[0])
      && match r
         case MintRefused(error) => error == NeedsUserConfirmation && ConsumeRan(own[1..], m, action, ids, None)
         case Minted(grant) =>
           && |own| == 4 && own[3].event == S.MintNext(m) && grant == |own[3].before.auth.grants|
           && var found := FreshConf(own[1].before, action, ids);
              found.Some? && ConsumeRan(own[1..3], m, action, ids, found)
  }

  /** `mint_grant`: a grant as asked for, on a confirmation of the same ids consumed for it, in one
      transaction with the promotion of every row that waits for this action type. */
  method MintGrant(db: Database, m: nat, action: ActionType, ids: seq<string>, expiry: Stamp)
    returns (r: MintOut, ghost at: nat, ghost own: seq<Moment>)
    requires db.Valid() && m !in db.state.auth.mints
    modifies db
    ensures db.Valid() && db.Continues(old(db.trace), old(db.state)) && db.Own() == old(db.Own()) + own
    ensures m !in db.state.auth.mints && |old(db.trace)| <= at <= |db.trace|
    ensures MintRan(db.StateAt(at), own, m, action, ids, expiry, r)
    ensures r.Minted? ==>
              && |db.state.auth.grants| == r.grant + 1
              && db.state.auth.grants[r.grant] == Grant(action, ids, expiry, db.StateAt(at).queue.now, None)
              && r.grant < |db.state.auth.source| && A.GrantOk(db.state.auth, r.grant)
              && forall i | 0 <= i < |db.state.queue.rows| && db.state.queue.rows[i].spec.action == action ::
                   !db.state.queue.rows[i].status.PendingGrant?
  {
    hide Linked, Mine, SpecsStay, LeavesTables, ConsumeRan, FreshConf, A.GrantOk;
    db.Yield(Minter(m));
    at, own := |db.trace|, [];
    ghost var read := db.state;
    var now := db.state.queue.now;
    var refusal := MintRefusal(action, ids, expiry, now);
    if refusal.Some? { return MintRefused(refusal.value), at, own; }
    StartLeavesTables(db.state, S.Ask(m, action, ids, expiry));
    db.Do(S.Ask(m, action, ids, expiry));
    ghost var ask := Moment(read, S.Ask(m, action, ids, expiry), true);
    own := [ask];
    r, own := MintConfirmed(db, m, S.Mint(S.Validated, action, ids, expiry, now, 0), read, ask);
    assert db.StateAt(at) == read;
  }

  /** From the confirmation on. */
  method MintConfirmed(db: Database, m: nat, mint: S.Mint, ghost read: S.Sys, ghost ask: Moment)
    returns (r: MintOut, ghost own: seq<Moment>)
    requires db.Valid() && IsMint(db.state, m, mint) && mint.stage.Validated? && mint.askedAt == read.queue.now
    requires MintRefusal(mint.action, mint.ids, mint.expiry, read.queue.now).None?
    requires ask == Moment(read, S.Ask(m, mint.action, mint.ids, mint.expiry), true) && LeavesTables(ask)
    modifies db
    ensures db.Valid() && db.Continues(old(db.trace), old(db.state)) && m !in db.state.auth.mints
    ensures |own| >= 1 && own[0] == ask && db.Own() == old(db.Own()) + own[1..]
    ensures MintRan(read, own, m, mint.action, mint.ids, mint.expiry, r)
    ensures r.Minted? ==> IsMinted(db.state, r.grant, GrantFor(mint))
  {
    hide Linked, Mine, SpecsStay, LeavesTables, FreshConf, A.GrantOk, IsMinted, ConsumeRan;
    var conf;
    ghost var two;
    conf, two := ConsumeConfirmation(db, m, mint);
    own := [ask] + two;
    assert own[1..] == two;
    ConsumeSays(two, m, mint.action, mint.ids, conf);
    if conf.None? { return MintRefused(NeedsUserConfirmation), own; }
    ghost var last;
    r, last := InsertAndPromote(db, m, mint.(stage := S.Consumed, conf := conf.value));
    own := [ask] + two + [last];
    assert own[1..3] == two && own[1..] == two + [last];
  }

  lemma ConsumeSays(own: seq<Moment>, m: nat, action: ActionType, ids: seq<string>, conf: Option<nat>)
    requires ConsumeRan(own, m, action, ids, conf)
    ensures |own| >= 1 && (conf.Some? ==> |own| == 2 && FreshConf(own[0].before, action, ids) == conf)
  {
  }

  /** The grant that the mint asked for is the last one, and none of its rows waits any more. */
  predicate IsMinted(s: S.Sys, grant: nat, g: Grant) {
    && |s.auth.grants| == grant + 1 && grant < |s.auth.source| && A.GrantOk(s.auth, grant)
    && s.auth.grants[grant] == g
    && forall i | 0 <= i < |s.queue.rows| && s.queue.rows[i].spec.action == g.action ::
         !s.queue.rows[i].status.PendingGrant?
  }

  function GrantFor(mint: S.Mint): Grant { Grant(mint.action, mint.ids, mint.expiry, mint.askedAt, None) }

  lemma GrantStands(db: Database, g: nat)
    requires db.Valid() && g < |db.state.auth.grants|
    ensures g < |db.state.auth.source| && A.GrantOk(db.state.auth, g)
  {
    hide Linked;
    db.Known();
  }

  method InsertAndPromote(db: Database, m: nat, mint: S.Mint) returns (r: MintOut, ghost last: Moment)
    requires db.Valid() && IsMint(db.state, m, mint) && mint.stage.Consumed?
    modifies db
    ensures db.Valid() && db.Continues(old(db.trace), old(db.state)) && db.Own() == old(db.Own()) + [last]
    ensures m !in db.state.auth.mints && last.event == S.MintNext(m)
    ensures r == Minted(|last.before.auth.grants|) && IsMinted(db.state, r.grant, GrantFor(mint))
  {
    hide Linked, Mine, SpecsStay, A.GrantOk;
    db.Yield(Minter(m));
    last := Moment(db.state, S.MintNext(m), true);
    db.Do(S.MintNext(m));
    r := Minted(|db.state.auth.grants| - 1);
    GrantStands(db, r.grant);
  }

  /** `revoke_grant`: refused, and nothing written, exactly if the grant is unknown or revoked already;
      either way no check after this moment finds it live. */
  method RevokeGrant(db: Database, g: nat) returns (ok: bool, ghost own: seq<Moment>)
    requires db.Valid()
    modifies db
    ensures db.Valid() && db.Continues(old(db.trace), old(db.state)) && db.Own() == old(db.Own()) + own
    ensures |own| == 1 && own[0].event == S.Revoke(g)
    ensures var was := own[0].before.auth.grants;
            && (ok <==> g < |was| && was[g].revokedAt.None?)
            && db.state.auth.grants == if ok then was[g := was[g].(revokedAt := Some(db.state.queue.now))] else was
    ensures g < |db.state.auth.grants| ==> forall action, at :: !IsLive(db.state.auth.grants[g], action, at)
  {
    hide Linked, Mine, SpecsStay;
    db.Yield(Anyone);
    ok := g < |db.state.auth.grants| && db.state.auth.grants[g].revokedAt.None?;
    own := [Moment(db.state, S.Revoke(g), true)];
    db.Do(S.Revoke(g));
  }

  // ----- the chat boundary -----

  /** A tool call of `propose_action` as parsed; None is an argument that is not a known name or text. */
  datatype ToolCall = ToolCall(action: Option<ActionType>, email: Option<string>)
  datatype Message = User(text: string) | Assistant(calls: seq<ToolCall>)

  predicate Speaks(m: Message) { m.User? && m.text != "" }

  /** The latest user message that is not empty, or that there is none. */
  predicate IsLatestUser(messages: seq<Message>, text: Option<string>) {
    match text
    case None => forall i | 0 <= i < |messages| :: !Speaks(messages[i])
    case Some(t) =>
      exists i | 0 <= i < |messages| ::
        messages[i] == User(t) && Speaks(messages[i]) && forall j | i < j < |messages| :: !Speaks(messages[j])
  }

  method FindLatestUser(messages: seq<Message>) returns (text: Option<string>)
    ensures IsLatestUser(messages, text)
  {
    var i := |messages|;
    while i > 0
      invariant 0 <= i <= |messages| && forall j | i <= j < |messages| :: !Speaks(messages[j])
    {
      i := i - 1;
      if messages[i].User? && messages[i].text != "" { return Some(messages[i].text); }
    }
    return None;
  }

  predicate IsOffer(c: ToolCall) { c.action.Some? && c.email.Some? && RequiresGrant(c.action.value) }

  /** The approvals a transcript puts on offer: its tool calls that name one email and an action that
      needs a grant, in order. */
  function CallOffers(caller: string, calls: seq<ToolCall>): seq<S.Event> {
    if calls == [] then []
    else
      var c := calls[|calls| - 1];
      CallOffers(caller, calls[..|calls| - 1]) +
      if IsOffer(c) then [S.ScanProposal(caller, c.action.value, c.email.value)] else []
  }

  function Offers(caller: string, messages: seq<Message>): seq<S.Event> {
    if messages == [] then []
    else
      var m := messages[|messages| - 1];
      Offers(caller, messages[..|messages| - 1]) + if m.Assistant? then CallOffers(caller, m.calls) else []
  }

  /** A transcript's offers are those of its messages in order; a message's, those of its calls; and a call
      is one exactly if it names one email and an action above Tier 1. */
  lemma {:induction false} OffersConcat(caller: string, a: seq<Message>, b: seq<Message>)
    ensures Offers(caller, a + b) == Offers(caller, a) + Offers(caller, b)
  {
    if b == [] {
      assert a + b == a;
    } else {
      assert (a + b)[..|a + b| - 1] == a + b[..|b| - 1];
      OffersConcat(caller, a, b[..|b| - 1]);
    }
  }

  lemma {:induction false} CallOffersConcat(caller: string, a: seq<ToolCall>, b: seq<ToolCall>)
    ensures CallOffers(caller, a + b) == CallOffers(caller, a) + CallOffers(caller, b)
  {
    if b == [] {
      assert a + b == a;
    } else {
      assert (a + b)[..|a + b| - 1] == a + b[..|b| - 1];
      CallOffersConcat(caller, a, b[..|b| - 1]);
    }
  }

  lemma OneOffer(caller: string, text: string, c: ToolCall)
    ensures Offers(caller, [User(text)]) == []
    ensures Offers(caller, [Assistant([c])]) ==
            if c.action.Some? && TierFor(c.action.value) in {2, 3} && c.email.Some?
            then [S.ScanProposal(caller, c.action.value, c.email.value)] else []
  {
    assert [User(text)][..0] == [] && [Assistant([c])][..0] == [] && [c][..0] == [];
    assert CallOffers(caller, [c]) ==
           if IsOffer(c) then [S.ScanProposal(caller, c.action.value, c.email.value)] else [];
    assert Offers(caller, [Assistant([c])]) == CallOffers(caller, [c]);
  }

  ghost function Events(own: seq<Moment>): (es: seq<S.Event>)
    ensures |es| == |own|
  {
    seq(|own|, i requires 0 <= i < |own| => own[i].event)
  }

  lemma EventsAppend(a: seq<Moment>, b: seq<Moment>)
    ensures Events(a + b) == Events(a) + Events(b)
  {
  }

  method ScanCalls(db: Database, turn: nat, caller: string, calls: seq<ToolCall>) returns (ghost own: seq<Moment>)
    requires db.Valid() && turn !in db.state.auth.turns
    modifies db
    ensures db.Valid() && db.Continues(old(db.trace), old(db.state)) && turn !in db.state.auth.turns
    ensures db.Own() == old(db.Own()) + own && Events(own) == CallOffers(caller, calls)
  {
    hide Linked, Mine, SpecsStay;
    own := [];
    for i := 0 to |calls|
      invariant db.Valid() && db.Continues(old(db.trace), old(db.state)) && turn !in db.state.auth.turns
      invariant db.Own() == old(db.Own()) + own && Events(own) == CallOffers(caller, calls[..i])
    {
      assert calls[..i + 1][..i] == calls[..i];
      if IsOffer(calls[i]) {
        db.Yield(Boundary(turn));
        var offer := S.ScanProposal(caller, calls[i].action.value, calls[i].email.value);
        ghost var m := Moment(db.state, offer, true);
        db.Do(offer);
        EventsAppend(own, [m]);
        own := own + [m];
      }
    }
    assert calls[..|calls|] == calls;
  }

  /** `_record_pending_grant_approvals_from_messages` */
  method ScanProposals(db: Database, turn: nat, caller: string, messages: seq<Message>) returns (ghost own: seq<Moment>)
    requires db.Valid() && turn !in db.state.auth.turns
    modifies db
    ensures db.Valid() && db.Continues(old(db.trace), old(db.state)) && turn !in db.state.auth.turns
    ensures db.Own() == old(db.Own()) + own && Events(own) == Offers(caller, messages)
  {
    hide Linked, Mine, SpecsStay;
    own := [];
    for i := 0 to |messages|
      invariant db.Valid() && db.Continues(old(db.trace), old(db.state)) && turn !in db.state.auth.turns
      invariant db.Own() == old(db.Own()) + own && Events(own) == Offers(caller, messages[..i])
    {
      assert messages[..i + 1][..i] == messages[..i];
      if messages[i].Assistant? {
        ghost var more := ScanCalls(db, turn, caller, messages[i].calls);
        EventsAppend(own, more);
        own := own + more;
      }
    }
    assert messages[..|messages|] == messages;
  }

  predicate HasApproval(s: S.Sys, caller: string) {
    caller in s.auth.approvals && s.queue.now - s.auth.approvals[caller].createdAt < 10 * MINUTE
  }

  /** After the scan, a confirmation is recorded exactly if the latest user message is a grant approval
      and its claim finds a pending approval of this caller that has not lapsed. */
  predicate ChatRan(own: seq<Moment>, turn: nat, caller: string, text: Option<string>, confirmed: bool) {
    if text.None? || IsEscalation(text.value) || !IsGrantApproval(text.value) then own == [] && !confirmed
    else
      && |own| >= 1 && own[0].event == S.UserSays(turn, caller, text.value)
      && (confirmed <==> HasApproval(own[0].before, caller))
      && if confirmed then |own| == 2 && own[1].event == S.Confirm(turn) else |own| == 1
  }

  /** The confirmation on record is of the pending approval that was claimed, and names one email. */
  predicate IsConfirmed(s: S.Sys, approval: S.Approval) {
    && s.auth.confs != []
    && var c := s.auth.confs[|s.auth.confs| - 1];
       && c.action == approval.action && c.ids == Canonical(approval.ids) && |c.ids| == 1
       && c.createdAt == s.queue.now && c.consumedAt.None?
  }

  /** USER_CONFIRMATION_INSERT for the claimed approval. */
  method ConfirmTurn(db: Database, turn: nat) returns (ghost last: Moment)
    requires db.Valid() && turn in db.state.auth.turns
    modifies db
    ensures db.Valid() && db.Continues(old(db.trace), old(db.state)) && turn !in db.state.auth.turns
    ensures db.Own() == old(db.Own()) + [last] && last.event == S.Confirm(turn)
    ensures var t := old(db.state.auth.turns)[turn]; IsConfirmed(db.state, S.Approval(t.action, t.ids, 0))
  {
    hide Linked, Mine, SpecsStay;
    db.Yield(Boundary(turn));
    db.Known();
    last := Moment(db.state, S.Confirm(turn), true);
    db.Do(S.Confirm(turn));
  }

  /** `confirm_pending_grant` on an approval phrase. */
  method ConfirmPendingGrant(db: Database, turn: nat, caller: string, text: string)
    returns (confirmed: bool, ghost own: seq<Moment>)
    requires db.Valid() && turn !in db.state.auth.turns && IsGrantApproval(text) && !IsEscalation(text)
    modifies db
    ensures db.Valid() && db.Continues(old(db.trace), old(db.state)) && turn !in db.state.auth.turns
    ensures db.Own() == old(db.Own()) + own && ChatRan(own, turn, caller, Some(text), confirmed)
    ensures confirmed ==> IsConfirmed(db.state, own[0].before.auth.approvals[caller])
  {
    hide Linked, Mine, SpecsStay, Canonical, IsGrantApproval, IsEscalation;
    db.Yield(Boundary(turn));
    ghost var says := Moment(db.state, S.UserSays(turn, caller, text), true);
    own := [says];
    db.Do(S.UserSays(turn, caller, text));
    confirmed := turn in db.state.auth.turns;
    if confirmed {
      ghost var last := ConfirmTurn(db, turn);
      own := [says, last];
    }
  }

  /** The user-phrase step of `chat_completions`, as far as grants go. */
  method ChatTurn(db: Database, turn: nat, caller: string, messages: seq<Message>)
    returns (confirmed: bool, ghost text: Option<string>, ghost scanned: seq<Moment>, ghost own: seq<Moment>)
    requires db.Valid() && turn !in db.state.auth.turns
    modifies db
    ensures db.Valid() && db.Continues(old(db.trace), old(db.state)) && turn !in db.state.auth.turns
    ensures db.Own() == old(db.Own()) + scanned + own && Events(scanned) == Offers(caller, messages)
    ensures IsLatestUser(messages, text) && ChatRan(own, turn, caller, text, confirmed)
    ensures confirmed ==> IsConfirmed(db.state, own[0].before.auth.approvals[caller])
  {
    hide Linked, Mine, SpecsStay, IsLatestUser, Canonical, IsConfirmed, Events, IsGrantApproval, IsEscalation;
    confirmed, own := false, [];
    scanned := ScanProposals(db, turn, caller, messages);
    var latest := FindLatestUser(messages);
    text := latest;
    if latest.None? || IsEscalation(latest.value) || !IsGrantApproval(latest.value) { return; }
    confirmed, own := ConfirmPendingGrant(db, turn, caller, latest.value);
  }
}
