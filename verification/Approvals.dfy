/** No unapproved dispatch: what stands behind every Tier-2 and Tier-3 call of the adapter. */
module Approvals {
  import opened Actions
  import opened Timestamps
  import opened Tables
  import opened Phrases
  import opened System
  import Q = Queue
  import O = Ownership

  // ----- the confirmation layer on its own -----

  /** The user turn exists, came from a user, and carried an approval phrase. */
  predicate Spoken(phrases: seq<Phrase>, k: nat, limit: int) {
    k < |phrases| && IsGrantApproval(phrases[k].text) && phrases[k].at <= limit
  }

  /** The boundary only ever scans proposals that name one email. */
  predicate ConfOk(phrases: seq<Phrase>, c: Conf, now: int) {
    Spoken(phrases, c.phrase, c.createdAt) && c.createdAt <= now && |c.ids| == 1
  }

  predicate MintOk(a: Auth, m: Mint, now: int) {
    && RequiresGrant(m.action) && m.askedAt < m.expiry.instant <= m.askedAt + MAX_GRANT_WINDOW && m.askedAt <= now
    && (!m.stage.Validated? ==>
          && m.conf < |a.confs| && a.confs[m.conf].action == m.action && a.confs[m.conf].ids == Canonical(m.ids)
          && m.askedAt < a.confs[m.conf].createdAt + CONFIRMATION_TTL)
    && (m.stage.Consumed? ==> a.confs[m.conf].consumedAt.Some? && m.conf !in a.source)
  }

  /** A grant stands on a consumed confirmation for the same action and the same ids, was asked for
      less than ten minutes after it, and its expiry instant is within a day of that. */
  predicate GrantOk(a: Auth, g: nat)
    requires g < |a.grants| && g < |a.source|
  {
    && RequiresGrant(a.grants[g].action)
    && a.source[g] < |a.confs|
    && var c := a.confs[a.source[g]];
       && c.consumedAt.Some? && c.action == a.grants[g].action && c.ids == Canonical(a.grants[g].ids)
       && a.grants[g].mintedAt < c.createdAt + CONFIRMATION_TTL
       && a.grants[g].mintedAt < a.grants[g].expiry.instant <= a.grants[g].mintedAt + MAX_GRANT_WINDOW
  }

  ghost predicate Heard(a: Auth, now: int) {
    && (forall c | c in a.approvals :: |a.approvals[c].ids| == 1)
    && (forall t | t in a.turns :: |a.turns[t].ids| == 1 && Spoken(a.phrases, a.turns[t].phrase, now))
    && (forall i | 0 <= i < |a.confs| :: ConfOk(a.phrases, a.confs[i], now))
  }

  ghost predicate Minting(a: Auth, now: int) {
    && (forall m | m in a.mints :: MintOk(a, a.mints[m], now))
    && (forall m, n | m in a.mints && n in a.mints && m != n &&
                      a.mints[m].stage.Consumed? && a.mints[n].stage.Consumed? ::
          a.mints[m].conf != a.mints[n].conf)
  }

  ghost predicate Backed(a: Auth) {
    && |a.source| == |a.grants|
    && (forall g | 0 <= g < |a.grants| :: GrantOk(a, g))
    && (forall g, h | 0 <= g < h < |a.source| :: a.source[g] != a.source[h])
  }

  ghost predicate Sound(a: Auth, now: int) { Heard(a, now) && Minting(a, now) && Backed(a) }

  lemma TimeKeepsSound(a: Auth, now: int, later: int)
    requires Sound(a, now) && now <= later
    ensures Sound(a, later)
  {
  }

  lemma KeepsHeard(a: Auth, e: Event, now: int)
    requires Heard(a, now)
    ensures Heard(AuthStep(a, e, now), now)
  {
    var b := AuthStep(a, e, now);
    forall i | 0 <= i < |b.confs| ensures ConfOk(b.phrases, b.confs[i], now) {
      if i < |a.confs| { assert ConfOk(a.phrases, a.confs[i], now); }
    }
  }

  /** Confirmations are only ever added and consumed. */
  predicate ConfsGrow(xs: seq<Conf>, ys: seq<Conf>) {
    && |xs| <= |ys|
    && forall i | 0 <= i < |xs| ::
         ys[i] == xs[i].(consumedAt := ys[i].consumedAt) && (xs[i].consumedAt.Some? ==> ys[i] == xs[i])
  }

  lemma StepConfsGrow(a: Auth, e: Event, now: int)
    ensures ConfsGrow(a.confs, ConfsAfter(a, e, now))
  {
  }

  lemma MintKept(a: Auth, b: Auth, m: Mint, now: int)
    requires MintOk(a, m, now) && ConfsGrow(a.confs, b.confs)
    requires m.stage.Consumed? ==> m.conf !in b.source
    ensures MintOk(b, m, now)
  {
  }

  /** The call that moves on; a confirmation it wins has backed no grant yet. */
  lemma MintMoves(a: Auth, e: Event, now: int)
    requires Minting(a, now) && Backed(a) && e.MintNext? && e.m in a.mints
    ensures var next := MintAfter(a, e, a.mints[e.m], now);
            next.Some? ==> MintOk(AuthStep(a, e, now), next.value, now) &&
                           next.value.conf == MintsAfter(a, e, now)[e.m].conf
    ensures Consumes(a, e) ==> a.mints[e.m].conf !in a.source
  {
    assert MintOk(a, a.mints[e.m], now);
    if Consumes(a, e) {
      forall g | 0 <= g < |a.source| ensures a.source[g] != a.mints[e.m].conf { assert GrantOk(a, g); }
    }
  }

  lemma KeepsMinting(a: Auth, e: Event, now: int)
    requires Minting(a, now) && Backed(a)
    requires e.Ask? ==> IsMintable(e.action, e.ids, e.expiry, now)
    ensures Minting(AuthStep(a, e, now), now)
  {
    hide Canonical, FindConf, IsGrantApproval, IsEscalation;
    var b := AuthStep(a, e, now);
    StepConfsGrow(a, e, now);
    if e.MintNext? && e.m in a.mints { MintMoves(a, e, now); }
    forall n | n in b.mints ensures MintOk(b, b.mints[n], now) {
      if n in a.mints && b.mints[n] == a.mints[n] {
        assert MintOk(a, a.mints[n], now);
        MintKept(a, b, a.mints[n], now);
      }
    }
    if Consumes(a, e) {
      forall n | n in a.mints && a.mints[n].stage.Consumed? ensures a.mints[n].conf != a.mints[e.m].conf {
        assert MintOk(a, a.mints[n], now);
      }
    }
  }

  lemma KeepsBacked(a: Auth, e: Event, now: int)
    requires Minting(a, now) && Backed(a)
    ensures Backed(AuthStep(a, e, now))
  {
    var b := AuthStep(a, e, now);
    StepConfsGrow(a, e, now);
    if Mints(a, e, Consumed) { assert MintOk(a, a.mints[e.m], now); }
    forall g | 0 <= g < |b.grants| ensures GrantOk(b, g) {
      if g < |a.grants| { assert GrantOk(a, g); }
    }
  }

  lemma AuthKeepsSound(a: Auth, e: Event, now: int)
    requires Sound(a, now)
    requires e.Ask? ==> IsMintable(e.action, e.ids, e.expiry, now)
    ensures Sound(AuthStep(a, e, now), now)
  {
    KeepsHeard(a, e, now);
    KeepsMinting(a, e, now);
    KeepsBacked(a, e, now);
  }

  // ----- the drainer's check -----

  /** At `at` the grant was live for the action and covered the email. */
  predicate WasLive(grants: seq<Grant>, g: Option<nat>, s: Spec, at: int) {
    && g.Some? && g.value < |grants|
    && grants[g.value].action == s.action && Covers(grants[g.value], s.emailId)
    && Outlasts(grants[g.value].expiry, at)
    && (grants[g.value].revokedAt.Some? ==> at <= grants[g.value].revokedAt.value)
  }

  predicate TierOk(s: Spec) { s.tier == TierFor(s.action) > 0 }

  predicate PastCheck(x: Q.Drainer) {
    x.Working? && (x.stage.Vetting? || x.stage.Capping? || x.stage.Counting? || x.stage.Capturing? ||
                   x.stage.Recording? || x.stage.Dispatching?)
  }

  predicate JobChecked(grants: seq<Grant>, x: Q.Drainer, now: int) {
    x.Working? ==>
      && TierOk(x.job.spec) && x.job.checkedAt <= now
      && (PastCheck(x) && RequiresGrant(x.job.spec.action) ==>
          WasLive(grants, x.job.grant, x.job.spec, x.job.checkedAt))
  }

  predicate SentChecked(grants: seq<Grant>, s: Q.Dispatch, now: int) {
    s.checkedAt <= s.at <= now && (RequiresGrant(s.spec.action) ==> WasLive(grants, s.grant, s.spec, s.checkedAt))
  }

  predicate CallTier(c: Q.Call) {
    && (c.Resolved? || c.Claiming? || c.Inverting? ==> TierOk(c.inverse))
  }

  ghost predicate Checked(s: Sys) {
    && (forall d | 0 <= d < |s.queue.drainers| :: JobChecked(s.auth.grants, s.queue.drainers[d], s.queue.now))
    && (forall k | 0 <= k < |s.queue.dispatches| :: SentChecked(s.auth.grants, s.queue.dispatches[k], s.queue.now))
    && (forall i | 0 <= i < |s.queue.rows| :: TierOk(s.queue.rows[i].spec))
    && (forall p | p in s.queue.calls :: CallTier(s.queue.calls[p]))
    && 0 <= s.queue.now
  }

  /** Grants are only ever added and revoked, and a revocation is stamped when it happens. */
  predicate GrantsGrow(xs: seq<Grant>, ys: seq<Grant>, now: int) {
    && |xs| <= |ys|
    && forall g | 0 <= g < |xs| :: ys[g] == xs[g] || (xs[g].revokedAt.None? && ys[g] == xs[g].(revokedAt := Some(now)))
  }

  lemma StepGrantsGrow(a: Auth, e: Event, now: int)
    ensures GrantsGrow(a.grants, GrantsAfter(a, e, now), now)
  {
  }

  lemma CheckKept(q: Q.Queue, grants: seq<Grant>, x: Q.Drainer, c: Q.Choice, y: Q.Drainer)
    requires JobChecked(grants, x, q.now) && O.Follows(q, grants, x, c, y) && 0 <= q.now
    requires y.Working? ==> TierOk(y.job.spec)
    ensures JobChecked(grants, y, q.now)
  {
  }

  lemma QueueKeepsTiers(q: Q.Queue, grants: seq<Grant>, e: Q.Event)
    requires Q.Enabled(q, e) && O.Known(q)
    requires forall i | 0 <= i < |q.rows| :: TierOk(q.rows[i].spec)
    requires forall p | p in q.calls :: CallTier(q.calls[p])
    ensures var t := Q.Step(q, grants, e);
            (forall i | 0 <= i < |t.rows| :: TierOk(t.rows[i].spec)) &&
            (forall p | p in t.calls :: CallTier(t.calls[p]))
  {
    if e.Drain? {
      var x := q.drainers[e.d];
      assert O.Ready(q.rows, x);
      O.DrainSteady(q, grants, x, e.choice);
    } else {
      O.OthersSpare(q, grants, e);
    }
  }

  /** What is sent was checked. */
  lemma SendIsChecked(q: Q.Queue, grants: seq<Grant>, e: Q.Event, k: nat)
    requires Q.Enabled(q, e) && e.Drain? && JobChecked(grants, q.drainers[e.d], q.now)
    requires |q.dispatches| <= k < |Q.Step(q, grants, e).dispatches|
    ensures SentChecked(grants, Q.Step(q, grants, e).dispatches[k], q.now)
  {
    hide Q.DrainNext, Q.RowsAfter, Q.Records, Q.Moves, Q.Lapses, Q.CanTake, Outlasts, Covers;
  }

  lemma QueueKeepsDispatches(q: Q.Queue, grants: seq<Grant>, e: Q.Event)
    requires Q.Enabled(q, e)
    ensures q.dispatches <= Q.Step(q, grants, e).dispatches && q.now <= Q.Step(q, grants, e).now
    ensures e.Drain? ==> Q.Step(q, grants, e).now == q.now
    ensures !e.Drain? ==> Q.Step(q, grants, e).dispatches == q.dispatches
  {
    hide Q.DrainNext, Q.RowsAfter, Q.Records, Q.Moves, Q.Lapses, Q.CanTake, Q.Sends;
  }

  lemma QueueKeepsChecked(s: Sys, e: Q.Event)
    requires Q.Enabled(s.queue, e) && O.Known(s.queue) && Checked(s)
    ensures Checked(s.(queue := Q.Step(s.queue, s.auth.grants, e)))
  {
    var q, grants := s.queue, s.auth.grants;
    var t := Q.Step(q, grants, e);
    QueueKeepsTiers(q, grants, e);
    if e.Drain? {
      var x := q.drainers[e.d];
      O.StepKeepsKnown(q, grants, e);
      O.DrainFollows(q, grants, x, e.choice);
      assert O.Ready(t.rows, t.drainers[e.d]) && JobChecked(grants, x, q.now);
      CheckKept(q, grants, x, e.choice, t.drainers[e.d]);
    } else {
      O.OthersSpare(q, grants, e);
    }
    QueueKeepsDispatches(q, grants, e);
    assert |t.drainers| == |q.drainers| && forall d | 0 <= d < |q.drainers| && !(e.Drain? && d == e.d) ::
                                             t.drainers[d] == q.drainers[d];
    hide Q.Step, Q.CanDrain, JobChecked, SentChecked, O.Follows, O.Ready;
    forall d | 0 <= d < |t.drainers| ensures JobChecked(grants, t.drainers[d], t.now) {
      if !(e.Drain? && d == e.d) { JobStaysChecked(grants, q.drainers[d], q.now, t.now); }
    }
    forall k | 0 <= k < |t.dispatches| ensures SentChecked(grants, t.dispatches[k], t.now) {
      if k < |q.dispatches| {
        assert t.dispatches[k] == q.dispatches[k];
        SentStaysChecked(grants, q.dispatches[k], q.now, t.now);
      } else {
        SendIsChecked(q, grants, e, k);
      }
    }
  }

  lemma JobStaysChecked(grants: seq<Grant>, x: Q.Drainer, now: int, later: int)
    requires JobChecked(grants, x, now) && now <= later
    ensures JobChecked(grants, x, later)
  {
  }

  lemma SentStaysChecked(grants: seq<Grant>, s: Q.Dispatch, now: int, later: int)
    requires SentChecked(grants, s, now) && now <= later
    ensures SentChecked(grants, s, later)
  {
  }

  lemma GrantsKeepChecked(q: Q.Queue, a: Auth, b: Auth)
    requires Checked(Sys(q, a)) && GrantsGrow(a.grants, b.grants, q.now)
    ensures Checked(Sys(q, b))
  {
    forall d | 0 <= d < |q.drainers| ensures JobChecked(b.grants, q.drainers[d], q.now) {
      assert JobChecked(a.grants, q.drainers[d], q.now);
    }
    forall k | 0 <= k < |q.dispatches| ensures SentChecked(b.grants, q.dispatches[k], q.now) {
      assert SentChecked(a.grants, q.dispatches[k], q.now);
    }
  }

  // ----- the whole system -----

  ghost predicate Invariant(s: Sys) {
    O.Known(s.queue) && Sound(s.auth, s.queue.now) && Checked(s)
  }

  lemma NowAdvances(q: Q.Queue, grants: seq<Grant>, e: Q.Event)
    requires Q.Enabled(q, e)
    ensures q.now <= Q.Step(q, grants, e).now
  {
  }

  lemma StepKeepsInvariant(s: Sys, e: Event)
    requires Enabled(s, e) && Invariant(s)
    ensures Invariant(Step(s, e))
  {
    var now, b := s.queue.now, AuthStep(s.auth, e, s.queue.now);
    AuthKeepsSound(s.auth, e, now);
    var q := QueueEvent(s, e);
    if q.Some? {
      O.StepKeepsKnown(s.queue, s.auth.grants, q.value);
      NowAdvances(s.queue, s.auth.grants, q.value);
      TimeKeepsSound(b, now, Step(s, e).queue.now);
      QueueKeepsChecked(s, q.value);
    }
    StepGrantsGrow(s.auth, e, now);
    GrantsKeepChecked(Step(s, e).queue, s.auth, b);
  }

  lemma {:induction false} RunKeepsInvariant(s: Sys, es: seq<Event>)
    requires Runs(s, es) && Invariant(s)
    ensures Invariant(After(s, es))
    decreases |es|
  {
    if es != [] {
      StepKeepsInvariant(s, es[0]);
      RunKeepsInvariant(Step(s, es[0]), es[1..]);
    }
  }

  /** Nobody has approved, minted or dispatched anything; rows from before carry their own tier. */
  predicate Start(s: Sys) {
    && s.auth == Auth([], [], map[], map[], map[], [], [])
    && s.queue.calls == map[] && s.queue.dispatches == [] && 0 <= s.queue.now
    && s.queue.moves == [] && s.queue.marks == [] && s.queue.captures == map[] && s.queue.inverses == []
    && s.queue.applied == [] && s.queue.restamps == []
    && (forall d | 0 <= d < |s.queue.drainers| :: s.queue.drainers[d].Idle?)
    && (forall i | 0 <= i < |s.queue.rows| :: TierOk(s.queue.rows[i].spec))
  }

  /** A start without rows and history; any emails, any mailbox, any number of drainers. */
  predicate IsEmpty(s: Sys) { Start(s) && s.queue.rows == [] && s.queue.history == map[] }

  lemma StartIsSound(s: Sys)
    requires Start(s)
    ensures Invariant(s)
  {
  }

  /** What stands behind one Tier-2 or Tier-3 dispatch. */
  ghost predicate Authorized(s: Sys, d: Q.Dispatch) {
    && d.grant.Some? && d.grant.value < |s.auth.grants| && d.grant.value < |s.auth.source|
    && var g := s.auth.grants[d.grant.value];
       var k := s.auth.source[d.grant.value];
       && k < |s.auth.confs|
       && var c := s.auth.confs[k];
          // the check found a live grant for this action and this email …
          && g.action == d.spec.action && (g.revokedAt.Some? ==> d.checkedAt <= g.revokedAt.value)
          && d.spec.emailId.Some? && g.ids == [d.spec.emailId.value]
          // … minted on a confirmation of exactly those ids, consumed for it …
          && c.consumedAt.Some? && c.action == g.action && multiset(c.ids) == multiset(g.ids)
          // … that a user's approval phrase created …
          && c.phrase < |s.auth.phrases| && IsGrantApproval(s.auth.phrases[c.phrase].text)
          && s.auth.phrases[c.phrase].at <= c.createdAt
          // … and no longer ago than the two windows, and what the expiry's text adds, allow.
          && d.checkedAt < c.createdAt + 10 * MINUTE + 24 * HOUR + Overrun(g.expiry)
  }

  lemma AuthorizedDispatch(s: Sys, k: nat)
    requires Invariant(s) && k < |s.queue.dispatches| && RequiresGrant(s.queue.dispatches[k].spec.action)
    ensures Authorized(s, s.queue.dispatches[k])
  {
    var d := s.queue.dispatches[k];
    assert SentChecked(s.auth.grants, d, s.queue.now);
    var g := d.grant.value;
    assert GrantOk(s.auth, g);
    var c := s.auth.confs[s.auth.source[g]];
    assert ConfOk(s.auth.phrases, c, s.queue.now);
    ExpiryOverrun(s.auth.grants[g].expiry);
    assert |s.auth.grants[g].ids| == 1;
    assert s.auth.grants[g].ids == [s.auth.grants[g].ids[0]];
  }

  lemma GrantsStandApart(t: Sys)
    requires Invariant(t)
    ensures forall g, h | 0 <= g < h < |t.auth.source| :: t.auth.source[g] != t.auth.source[h]
    ensures forall g | 0 <= g < |t.auth.grants| :: |t.auth.grants[g].ids| == 1
  {
    forall g | 0 <= g < |t.auth.grants| ensures |t.auth.grants[g].ids| == 1 {
      assert GrantOk(t.auth, g);
      assert ConfOk(t.auth.phrases, t.auth.confs[t.auth.source[g]], t.queue.now);
    }
  }

  /** In every run, every dispatch of a grant-gated action was checked against a grant that consumed
      its own confirmation of exactly that email, spoken by the user; with a UTC expiry that has a
      fraction, within 24 hours and 10 minutes. No two grants share a confirmation. */
  lemma NoUnapprovedDispatch(s: Sys, es: seq<Event>, k: nat)
    requires Runs(s, es) && Start(s)
    requires k < |After(s, es).queue.dispatches| && RequiresGrant(After(s, es).queue.dispatches[k].spec.action)
    ensures Authorized(After(s, es), After(s, es).queue.dispatches[k])
    ensures var t := After(s, es); forall g, h | 0 <= g < h < |t.auth.source| :: t.auth.source[g] != t.auth.source[h]
  {
    StartIsSound(s);
    hide Start, Invariant, Authorized;
    RunKeepsInvariant(s, es);
    AuthorizedDispatch(After(s, es), k);
    GrantsStandApart(After(s, es));
  }

  /** The boundary scans only proposals that carry an email id, so an action without one is never
      approved: no mailbox rule, filter, delegated write or fresh e-mail without an id ever leaves. */
  lemma EmailLessActionsNeverLeave(s: Sys, es: seq<Event>, k: nat)
    requires Runs(s, es) && Start(s) && k < |After(s, es).queue.dispatches|
    requires RequiresGrant(After(s, es).queue.dispatches[k].spec.action)
    ensures After(s, es).queue.dispatches[k].spec.emailId.Some?
    ensures forall g | 0 <= g < |After(s, es).auth.grants| :: |After(s, es).auth.grants[g].ids| == 1
  {
    StartIsSound(s);
    hide Start, Invariant;
    RunKeepsInvariant(s, es);
    AuthorizedDispatch(After(s, es), k);
    GrantsStandApart(After(s, es));
  }
}
