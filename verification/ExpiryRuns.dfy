/** When the check of a dispatch can fall: a grant's expiry is compared as text, so one written in
    another zone, or on a whole second, is found live past its instant. */
module ExpiryRuns {
  import opened Actions
  import opened Timestamps
  import opened Tables
  import opened Reach
  import opened Flights
  import opened Lines
  import Q = Queue
  import S = System
  import A = Approvals

  /** The dispatch was made at `sentAt` and checked at `at`, against a grant with that expiry, asked for at
      `askedAt` on a confirmation recorded at `confirmedAt`. */
  predicate IsChecked(t: S.Sys, d: Q.Dispatch, expiry: Stamp, confirmedAt: int, askedAt: int, at: int, sentAt: int) {
    && RequiresGrant(d.spec.action) && d.checkedAt == at && d.at == sentAt
    && d.grant.Some? && d.grant.value < |t.auth.grants| && d.grant.value < |t.auth.source|
    && var g, c := t.auth.grants[d.grant.value], t.auth.source[d.grant.value];
       g.expiry == expiry && g.mintedAt == askedAt && c < |t.auth.confs| && t.auth.confs[c].createdAt == confirmedAt
  }

  /** A run from nothing to such a dispatch. */
  ghost predicate Checks(s: S.Sys, es: seq<S.Event>, expiry: Stamp, confirmedAt: int, askedAt: int, at: int,
      sentAt: int)
  {
    && S.Runs(s, es) && A.IsEmpty(s)
    && var t := S.After(s, es);
       exists k | 0 <= k < |t.queue.dispatches| ::
         IsChecked(t, t.queue.dispatches[k], expiry, confirmedAt, askedAt, at, sentAt)
  }

  /** What the mint accepts, and what the check finds live. */
  predicate CanCheck(expiry: Stamp, confirmedAt: int, askedAt: int, at: int, sentAt: int) {
    && askedAt < confirmedAt + 10 * MINUTE && askedAt < expiry.instant <= askedAt + 24 * HOUR
    && Outlasts(expiry, at) && at <= sentAt
  }

  lemma ChecksOnlyWhenLive(s: S.Sys, es: seq<S.Event>, expiry: Stamp, confirmedAt: int, askedAt: int, at: int,
      sentAt: int)
    requires Checks(s, es, expiry, confirmedAt, askedAt, at, sentAt)
    ensures CanCheck(expiry, confirmedAt, askedAt, at, sentAt)
  {
    A.StartIsSound(s);
    A.RunKeepsInvariant(s, es);
    var t := S.After(s, es);
    var k :| 0 <= k < |t.queue.dispatches| &&
             IsChecked(t, t.queue.dispatches[k], expiry, confirmedAt, askedAt, at, sentAt);
    var d := t.queue.dispatches[k];
    assert A.SentChecked(t.auth.grants, d, t.queue.now);
    assert A.GrantOk(t.auth, d.grant.value);
  }

  // ----- the run -----

  function Removal(at: int): Spec { Spec(Some("m"), Delete, 3, map[], at, Some("v")) }

  /** Proposed, confirmed, and later asked for: the row waits and the grant is there. */
  lemma Grants(expiry: Stamp, confirmedAt: nat, askedAt: nat, at: int) returns (s: S.Sys, u: S.Sys)
    requires confirmedAt <= askedAt <= at && CanCheck(expiry, confirmedAt, askedAt, at, at)
    ensures A.IsEmpty(s) && Arrives(0, s, u) && s == Nothing(1, confirmedAt)
    ensures u.queue == s.queue.(rows := [NewRow(Removal(confirmedAt), Pending)], now := at)
    ensures u.auth.grants == [Grant(Delete, ["m"], expiry, askedAt, None)]
    ensures u.auth.source == [0] && |u.auth.confs| == 1 && u.auth.confs[0].createdAt == confirmedAt
  {
    hide Arrives, Reaches, Outlasts;
    s := Nothing(1, confirmedAt);
    var q := s.queue;
    Here(0, s);
    Stay(q, []);
    var t := q.(rows := [NewRow(Removal(confirmedAt), Pending)]);
    assert Q.Step(q, [], Q.Propose(Removal(confirmedAt))) == t;
    Onward(q, [], q, Q.Propose(Removal(confirmedAt)));
    QueueArrives(0, s, s, t);
    u := Approves(0, s, S.Sys(t, s.auth), Delete, "m");
    u := Later(0, s, u, askedAt);
    u := Minted(0, s, u, Delete, "m", expiry, confirmedAt);
    assert PromoteGranted(t.rows, Delete) == t.rows;
    u := Later(0, s, u, at);
  }

  lemma Later(window: nat, s: S.Sys, t: S.Sys, at: int) returns (u: S.Sys)
    requires Arrives(window, s, t) && t.queue.now <= at
    ensures Arrives(window, s, u) && u == t.(queue := t.queue.(now := at))
  {
    hide Arrives, Reaches;
    Stay(t.queue, t.auth.grants);
    Onward(t.queue, t.auth.grants, t.queue, Q.Advance(at - t.queue.now));
    u := t.(queue := t.queue.(now := at));
    QueueArrives(window, s, t, u.queue);
  }

  lemma RemovalIsFit(q: Q.Queue, expiry: Stamp, askedAt: int, confirmedAt: int)
    requires q.emails == Inbox() && Outlasts(expiry, q.now)
    ensures IsFit(q, [Grant(Delete, ["m"], expiry, askedAt, None)], Removal(confirmedAt))
    ensures FindGrant([Grant(Delete, ["m"], expiry, askedAt, None)], Delete, Some("m"), q.now) == Some(0)
  {
    hide Outlasts;
    var g := Grant(Delete, ["m"], expiry, askedAt, None);
    assert IsLive(g, Delete, q.now) && Covers(g, Some("m"));
    assert Q.VetFailure(q.emails, Removal(confirmedAt)).None?;
  }

  /** The clock is read, the grant found, and the email vetted. */
  lemma Vets(o: Q.Queue, grants: seq<Grant>, q: Q.Queue, confirmedAt: int) returns (y: Q.Drainer)
    requires Reaches(o, grants, q) && |q.drainers| == 1 && q.drainers[0].Working? && q.drainers[0].stage.Claimed?
    requires !q.paused && q.drainers[0].job == Q.StartJob(Picked(0, Removal(confirmedAt)))
    requires IsFit(q, grants, Removal(confirmedAt))
    ensures y.Working? && y.stage.Recording? && y.job.id == 0 && y.job.spec == Removal(confirmedAt)
    ensures y.job.checkedAt == q.now && y.job.grant == FindGrant(grants, Delete, Some("m"), q.now)
    ensures Reaches(o, grants, At(q, 0, y))
  {
    hide Reaches, FindGrant;
    var x := q.drainers[0];
    assert At(q, 0, x) == q;
    y := Hop(o, grants, q, 0, x, Q.Go);
    y := Hop(o, grants, q, 0, y, Q.Go);
    y := Hop(o, grants, q, 0, y, Q.Go);
    y := Hop(o, grants, q, 0, y, Q.Go);
  }

  lemma Dispatches(q: Q.Queue, grants: seq<Grant>, confirmedAt: int, sentAt: int) returns (t: Q.Queue)
    requires q.rows == [NewRow(Removal(confirmedAt), Pending)] && q.history == map[] && q.dispatches == []
    requires |q.drainers| == 1 && q.drainers[0].Idle? && !q.paused && q.now <= sentAt
    requires IsFit(q, grants, Removal(confirmedAt))
    ensures Reaches(q, grants, t) && |t.dispatches| == 1
    ensures var d := t.dispatches[0];
            && d.spec == Removal(confirmedAt) && d.checkedAt == q.now && d.at == sentAt
            && d.grant == FindGrant(grants, Delete, Some("m"), q.now)
  {
    hide Reaches, FindGrant, IsFit;
    Stay(q, grants);
    t := ClaimNextInLine(q, grants, q, 0, 0, Removal(confirmedAt));
    assert IsFit(t, grants, Removal(confirmedAt)) by { SameFit(q, t, grants, Removal(confirmedAt)); }
    var y := Vets(q, grants, t, confirmedAt);
    t := At(t, 0, y);
    t := SentLater(q, grants, t, confirmedAt, sentAt);
  }

  lemma SentLater(o: Q.Queue, grants: seq<Grant>, q: Q.Queue, confirmedAt: int, sentAt: int) returns (t: Q.Queue)
    requires Reaches(o, grants, q) && |q.drainers| == 1 && q.drainers[0].Working? && q.drainers[0].stage.Recording?
    requires q.history == map[] && q.dispatches == [] && q.now <= sentAt
    requires q.drainers[0].job.spec == Removal(confirmedAt)
    ensures Reaches(o, grants, t) && |t.dispatches| == 1
    ensures var d, j := t.dispatches[0], q.drainers[0].job;
            d.spec == j.spec && d.checkedAt == j.checkedAt && d.at == sentAt && d.grant == j.grant
  {
    hide Reaches;
    var y := q.drainers[0];
    Record(o, grants, q, 0);
    t := Recorded(q, 0, y);
    Onward(o, grants, t, Q.Advance(sentAt - t.now));
    t := t.(now := sentAt);
    assert Q.CanAccept(t, Removal(confirmedAt));
    Send(o, grants, t, 0);
    t := AfterSend(t, 0);
  }

  lemma SameFit(q: Q.Queue, t: Q.Queue, grants: seq<Grant>, s: Spec)
    requires IsFit(q, grants, s) && t.emails == q.emails && t.mailbox == q.mailbox && t.now == q.now && s.action.Delete?
    ensures IsFit(t, grants, s)
  {
  }

  lemma SomeRunChecks(expiry: Stamp, confirmedAt: nat, askedAt: nat, at: int, sentAt: int)
    returns (s: S.Sys, es: seq<S.Event>)
    requires confirmedAt <= askedAt <= at && CanCheck(expiry, confirmedAt, askedAt, at, sentAt)
    ensures Checks(s, es, expiry, confirmedAt, askedAt, at, sentAt)
  {
    hide Arrives, Reaches, Outlasts, IsFit;
    var u;
    s, u := Grants(expiry, confirmedAt, askedAt, at);
    RemovalIsFit(u.queue, expiry, askedAt, confirmedAt);
    var t := Dispatches(u.queue, u.auth.grants, confirmedAt, sentAt);
    QueueArrives(0, s, u, t);
    es := RunOf(0, s, S.Sys(t, u.auth));
    assert IsChecked(S.Sys(t, u.auth), t.dispatches[0], expiry, confirmedAt, askedAt, at, sentAt);
  }

  // ----- which moments are possible, and which of them are late -----

  /** Some run from an empty database checks a Tier-2 or Tier-3 dispatch at a given moment, and makes it at a
      given later one, against a grant of a given expiry, asked for at a given moment after its
      confirmation, exactly if the mint accepts the expiry, the confirmation is not too old for it, and
      the text of the expiry is live at the check. */
  lemma CheckMoments(expiry: Stamp, confirmedAt: nat, askedAt: nat, at: int, sentAt: int)
    requires confirmedAt <= askedAt <= at
    ensures (exists s: S.Sys, es: seq<S.Event> :: Checks(s, es, expiry, confirmedAt, askedAt, at, sentAt)) <==>
            CanCheck(expiry, confirmedAt, askedAt, at, sentAt)
  {
    if CanCheck(expiry, confirmedAt, askedAt, at, sentAt) {
      var s, es := SomeRunChecks(expiry, confirmedAt, askedAt, at, sentAt);
    }
    forall s: S.Sys, es: seq<S.Event> | Checks(s, es, expiry, confirmedAt, askedAt, at, sentAt)
      ensures CanCheck(expiry, confirmedAt, askedAt, at, sentAt)
    {
      ChecksOnlyWhenLive(s, es, expiry, confirmedAt, askedAt, at, sentAt);
    }
  }

  /** A check ten minutes and a day after the confirmation, or later. */
  ghost predicate ChecksLate(s: S.Sys, es: seq<S.Event>, expiry: Stamp, confirmedAt: nat, askedAt: int, at: int,
      sentAt: int)
  {
    Checks(s, es, expiry, confirmedAt, askedAt, at, sentAt) && confirmedAt + 10 * MINUTE + 24 * HOUR <= at
  }

  /** The oldest confirmation a mint still takes; no clock reads less than 0. */
  function OldestConfirmation(askedAt: nat): nat {
    if askedAt < 10 * MINUTE then 0 else askedAt - 10 * MINUTE + 1
  }

  /** Whether a grant can be found live a day and ten minutes after its confirmation, or later, by what
      a caller knows before asking for it: the clock and the expiry. */
  predicate CanBeLate(expiry: Stamp, askedAt: nat) {
    && askedAt < expiry.instant <= askedAt + 24 * HOUR
    && OldestConfirmation(askedAt) + 10 * MINUTE + 24 * HOUR <= LastLive(expiry)
  }

  /** Some run checks a dispatch that late, exactly if the expiry's text outlasts the end of the mint
      window. */
  lemma LateCheckIff(expiry: Stamp, askedAt: nat)
    ensures (exists s: S.Sys, es: seq<S.Event>, confirmedAt: nat, at: int, sentAt: int ::
               ChecksLate(s, es, expiry, confirmedAt, askedAt, at, sentAt)) <==>
            CanBeLate(expiry, askedAt)
  {
    ExpiryOverrun(expiry);
    if CanBeLate(expiry, askedAt) {
      var c, at := OldestConfirmation(askedAt), LastLive(expiry);
      var s, es := SomeRunChecks(expiry, c, askedAt, at, at);
      assert ChecksLate(s, es, expiry, c, askedAt, at, at);
    }
    forall s: S.Sys, es: seq<S.Event>, confirmedAt: nat, at: int, sentAt: int
      | ChecksLate(s, es, expiry, confirmedAt, askedAt, at, sentAt)
      ensures CanBeLate(expiry, askedAt)
    {
      ChecksOnlyWhenLive(s, es, expiry, confirmedAt, askedAt, at, sentAt);
    }
  }

  lemma CanBeLateIff(expiry: Stamp)
    requires expiry.offset % MINUTE == 0 && 10 * MINUTE + 24 * HOUR <= expiry.instant
    ensures (exists askedAt: nat :: CanBeLate(expiry, askedAt)) <==>
            expiry.offset > 0 || (expiry.offset == 0 && expiry.instant % SECOND == 0)
  {
    if expiry.offset > 0 || (expiry.offset == 0 && expiry.instant % SECOND == 0) {
      assert CanBeLate(expiry, expiry.instant - 24 * HOUR);
    }
  }

  /** So there is a moment to ask for it, exactly if it is written east of UTC, or in UTC on a whole
      second. */
  lemma LateExpiryIff(expiry: Stamp)
    requires expiry.offset % MINUTE == 0 && 10 * MINUTE + 24 * HOUR <= expiry.instant
    ensures (exists s: S.Sys, es: seq<S.Event>, confirmedAt: nat, askedAt: nat, at: int, sentAt: int ::
               ChecksLate(s, es, expiry, confirmedAt, askedAt, at, sentAt)) <==>
            expiry.offset > 0 || (expiry.offset == 0 && expiry.instant % SECOND == 0)
  {
    hide ChecksLate, CanBeLate;
    CanBeLateIff(expiry);
    if askedAt: nat :| CanBeLate(expiry, askedAt) {
      LateCheckIff(expiry, askedAt);
      var s: S.Sys, es: seq<S.Event>, confirmedAt: nat, at: int, sentAt: int :|
        ChecksLate(s, es, expiry, confirmedAt, askedAt, at, sentAt);
    }
    forall s: S.Sys, es: seq<S.Event>, confirmedAt: nat, askedAt: nat, at: int, sentAt: int
      | ChecksLate(s, es, expiry, confirmedAt, askedAt, at, sentAt)
      ensures CanBeLate(expiry, askedAt)
    {
      LateCheckIff(expiry, askedAt);
    }
  }
}
