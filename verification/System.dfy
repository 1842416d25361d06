/** The confirmation and grant tables around the queue, and the system the two make together. */
module System {
  import opened Actions
  import opened Timestamps
  import opened Tables
  import opened Phrases
  import Q = Queue
  import O = Ownership

  datatype Approval = Approval(action: ActionType, ids: seq<string>, createdAt: int)

  /** `phrase` is the user turn the confirmation was recorded for; no step reads it. */
  datatype Conf = Conf(action: ActionType, ids: seq<string>, createdAt: int, consumedAt: Option<int>, phrase: nat)

  /** A claimed approval whose confirmation is about to be inserted. */
  datatype Turn = Turn(action: ActionType, ids: seq<string>, phrase: nat)

  datatype MintStage = Validated | Found | Consumed
  datatype Mint = Mint(stage: MintStage, action: ActionType, ids: seq<string>, expiry: Stamp, askedAt: int, conf: nat)

  datatype Phrase = Phrase(caller: string, text: string, at: int)

  /** `phrases` and `source` (the confirmation each grant consumed) only record what happened. */
  datatype Auth = Auth(
    grants: seq<Grant>, confs: seq<Conf>, approvals: map<string, Approval>,
    turns: map<nat, Turn>, mints: map<nat, Mint>, phrases: seq<Phrase>, source: seq<nat>)

  datatype Sys = Sys(queue: Q.Queue, auth: Auth)

  /** USER_CONFIRMATION_FIND_GRANT: the newest unconsumed row for this action and exact set. */
  predicate Matches(c: Conf, action: ActionType, ids: seq<string>) {
    c.action == action && c.ids == ids && c.consumedAt.None?
  }

  function FindConf(confs: seq<Conf>, action: ActionType, ids: seq<string>): (r: Option<nat>)
    ensures r.Some? ==> r.value < |confs| && Matches(confs[r.value], action, ids)
    ensures forall i | (if r.Some? then r.value + 1 else 0) <= i < |confs| :: !Matches(confs[i], action, ids)
  {
    if confs == [] then None
    else if Matches(confs[|confs| - 1], action, ids) then Some(|confs| - 1)
    else FindConf(confs[..|confs| - 1], action, ids)
  }

  predicate IsMintable(action: ActionType, ids: seq<string>, expiry: Stamp, now: int) {
    && RequiresGrant(action)
    && now < expiry.instant <= now + MAX_GRANT_WINDOW
    && |ids| <= MAX_BATCH_SIZE
  }

  datatype Event =
    | Act(event: Q.Event)
    | ScanProposal(caller: string, action: ActionType, email: string)
    | UserSays(turn: nat, caller: string, text: string)
    | Confirm(turn: nat)
    | Ask(m: nat, action: ActionType, ids: seq<string>, expiry: Stamp)
    | MintNext(m: nat)
    | Revoke(grant: nat)

  predicate Enabled(s: Sys, e: Event) {
    match e
    case Act(a) => !a.Promote? && Q.Enabled(s.queue, a)
    case ScanProposal(_, action, _) => RequiresGrant(action)
    case UserSays(t, _, _) => t !in s.auth.turns
    case Confirm(t) => t in s.auth.turns
    case Ask(m, action, ids, expiry) => m !in s.auth.mints && IsMintable(action, ids, expiry, s.queue.now)
    case MintNext(m) => m in s.auth.mints
    case Revoke(_) => true
  }

  /** A user turn the boundary takes as a grant approval of something the caller proposed. */
  predicate Approves(a: Auth, e: Event) {
    e.UserSays? && IsGrantApproval(e.text) && !IsEscalation(e.text) && e.caller in a.approvals
  }

  /** The pending approval is scanned from the transcript, and claimed by DELETE ... RETURNING. */
  function ApprovalsAfter(a: Auth, e: Event, now: int): map<string, Approval> {
    if e.ScanProposal? then a.approvals[e.caller := Approval(e.action, Canonical([e.email]), now)]
    else if Approves(a, e) then a.approvals - {e.caller}
    else a.approvals
  }

  /** A claimed approval that has not lapsed is on its way to becoming a confirmation. */
  function TurnsAfter(a: Auth, e: Event, now: int): map<nat, Turn> {
    if e.Confirm? then a.turns - {e.turn}
    else if Approves(a, e) && now < a.approvals[e.caller].createdAt + CONFIRMATION_TTL then
      a.turns[e.turn := Turn(a.approvals[e.caller].action, a.approvals[e.caller].ids, |a.phrases|)]
    else a.turns
  }

  /** `mint_grant` is at the given stage of its call. */
  predicate Mints(a: Auth, e: Event, stage: MintStage) {
    e.MintNext? && e.m in a.mints && a.mints[e.m].stage == stage
  }

  /** USER_CONFIRMATION_CONSUME wins the row. */
  predicate Consumes(a: Auth, e: Event) {
    && Mints(a, e, Found)
    && a.mints[e.m].conf < |a.confs| && a.confs[a.mints[e.m].conf].consumedAt.None?
  }

  function ConfsAfter(a: Auth, e: Event, now: int): seq<Conf> {
    if e.Confirm? && e.turn in a.turns then
      a.confs + [Conf(a.turns[e.turn].action, Canonical(a.turns[e.turn].ids), now, None, a.turns[e.turn].phrase)]
    else if Consumes(a, e) then
      a.confs[a.mints[e.m].conf := a.confs[a.mints[e.m].conf].(consumedAt := Some(now))]
    else a.confs
  }

  /** The next statement of `mint_grant`: find, consume, then insert; None is the end of the call. */
  function MintAfter(a: Auth, e: Event, mint: Mint, now: int): Option<Mint> {
    match mint.stage
    case Validated =>
      var c := FindConf(a.confs, mint.action, Canonical(mint.ids));
      if c.None? || a.confs[c.value].createdAt + CONFIRMATION_TTL <= now then None
      else Some(mint.(stage := Found, conf := c.value))
    case Found => if Consumes(a, e) then Some(mint.(stage := Consumed)) else None
    case Consumed => None
  }

  function MintsAfter(a: Auth, e: Event, now: int): map<nat, Mint> {
    if e.Ask? then a.mints[e.m := Mint(Validated, e.action, e.ids, e.expiry, now, 0)]
    else if e.MintNext? && e.m in a.mints then
      var next := MintAfter(a, e, a.mints[e.m], now);
      if next.Some? then a.mints[e.m := next.value] else a.mints - {e.m}
    else a.mints
  }

  /** ACTION_GRANT_INSERT and the guarded ACTION_GRANT_REVOKE. */
  function GrantsAfter(a: Auth, e: Event, now: int): seq<Grant> {
    if Mints(a, e, Consumed) then
      var m := a.mints[e.m];
      a.grants + [Grant(m.action, m.ids, m.expiry, m.askedAt, None)]
    else if e.Revoke? && e.grant < |a.grants| && a.grants[e.grant].revokedAt.None? then
      a.grants[e.grant := a.grants[e.grant].(revokedAt := Some(now))]
    else a.grants
  }

  function AuthStep(a: Auth, e: Event, now: int): Auth {
    Auth(GrantsAfter(a, e, now), ConfsAfter(a, e, now), ApprovalsAfter(a, e, now), TurnsAfter(a, e, now),
         MintsAfter(a, e, now),
         if e.UserSays? then a.phrases + [Phrase(e.caller, e.text, now)] else a.phrases,
         if Mints(a, e, Consumed) then a.source + [a.mints[e.m].conf] else a.source)
  }

  /** The queue's side of a step: minting promotes the waiting rows in the insert's transaction. */
  function QueueEvent(s: Sys, e: Event): Option<Q.Event> {
    match e
    case Act(a) => Some(a)
    case MintNext(m) => if Mints(s.auth, e, Consumed) then Some(Q.Promote(s.auth.mints[m].action)) else None
    case _ => None
  }

  function Step(s: Sys, e: Event): Sys
    requires Enabled(s, e)
  {
    var q := QueueEvent(s, e);
    Sys(if q.Some? then Q.Step(s.queue, s.auth.grants, q.value) else s.queue, AuthStep(s.auth, e, s.queue.now))
  }

  ghost predicate Runs(s: Sys, es: seq<Event>)
    decreases |es|
  {
    es == [] || (Enabled(s, es[0]) && Runs(Step(s, es[0]), es[1..]))
  }

  ghost function After(s: Sys, es: seq<Event>): Sys
    requires Runs(s, es)
    decreases |es|
  {
    if es == [] then s else After(Step(s, es[0]), es[1..])
  }

  lemma {:induction false} RunExtends(s: Sys, es: seq<Event>, e: Event)
    requires Runs(s, es) && Enabled(After(s, es), e)
    ensures Runs(s, es + [e]) && After(s, es + [e]) == Step(After(s, es), e)
    decreases |es|
  {
    if es == [] {
      assert es + [e] == [e] && [e][1..] == [];
    } else {
      assert (es + [e])[1..] == es[1..] + [e];
      RunExtends(Step(s, es[0]), es[1..], e);
    }
  }

  /** The queue's part of a system run is a run of the queue, under the grants of the moment. */
  ghost function Ticks(s: Sys, es: seq<Event>): seq<O.Tick>
    requires Runs(s, es)
    decreases |es|
  {
    if es == [] then []
    else
      var q := QueueEvent(s, es[0]);
      (if q.Some? then [O.Tick(s.auth.grants, q.value)] else []) + Ticks(Step(s, es[0]), es[1..])
  }

  lemma FirstTick(q: Q.Queue, t: O.Tick, ts: seq<O.Tick>)
    requires Q.Enabled(q, t.event) && O.Runs(Q.Step(q, t.grants, t.event), ts)
    ensures O.Runs(q, [t] + ts) && O.After(q, [t] + ts) == O.After(Q.Step(q, t.grants, t.event), ts)
  {
    assert ([t] + ts)[0] == t && ([t] + ts)[1..] == ts;
  }

  lemma QueueSide(s: Sys, e: Event)
    requires Enabled(s, e)
    ensures var q := QueueEvent(s, e);
            if q.Some? then Q.Enabled(s.queue, q.value) && Step(s, e).queue == Q.Step(s.queue, s.auth.grants, q.value)
            else Step(s, e).queue == s.queue
  {
  }

  lemma {:induction false} SystemRunIsQueueRun(s: Sys, es: seq<Event>)
    requires Runs(s, es)
    ensures O.Runs(s.queue, Ticks(s, es)) && O.After(s.queue, Ticks(s, es)) == After(s, es).queue
    decreases |es|
  {
    if es != [] {
      var u := Step(s, es[0]);
      SystemRunIsQueueRun(u, es[1..]);
      QueueSide(s, es[0]);
      var q := QueueEvent(s, es[0]);
      if q.Some? {
        FirstTick(s.queue, O.Tick(s.auth.grants, q.value), Ticks(u, es[1..]));
      } else {
        assert Ticks(s, es) == Ticks(u, es[1..]);
      }
    }
  }
}
