/** Building runs: how a queue and a system get from one state to another. */
module Reach {
  import opened Actions
  import opened Timestamps
  import opened Tables
  import opened Queue
  import O = Ownership
  import S = System
  import P = Phrases
  import C = CoolingOff

  // ----- runs under one grants table -----

  /** Neither minting nor cooling off. */
  predicate IsPlain(e: Event) { !e.Promote? && !e.CoolingTick? }

  ghost predicate Path(q: Queue, grants: seq<Grant>, es: seq<Event>, t: Queue)
    decreases |es|
  {
    if es == [] then q == t
    else Enabled(q, es[0]) && IsPlain(es[0]) && Path(Step(q, grants, es[0]), grants, es[1..], t)
  }

  ghost predicate Reaches(q: Queue, grants: seq<Grant>, t: Queue) {
    exists es :: Path(q, grants, es, t)
  }

  lemma Stay(q: Queue, grants: seq<Grant>)
    ensures Reaches(q, grants, q)
  {
    var es: seq<Event> := [];
    assert Path(q, grants, es, q);
  }

  lemma {:induction false} PathExtends(q: Queue, grants: seq<Grant>, es: seq<Event>, t: Queue, e: Event)
    requires Path(q, grants, es, t) && Enabled(t, e) && IsPlain(e)
    ensures Path(q, grants, es + [e], Step(t, grants, e))
    decreases |es|
  {
    hide Enabled, Step;
    if es == [] {
      assert (es + [e])[0] == e;
      assert Path(Step(t, grants, e), grants, (es + [e])[1..], Step(t, grants, e));
    } else {
      assert (es + [e])[0] == es[0] && (es + [e])[1..] == es[1..] + [e];
      PathExtends(Step(q, grants, es[0]), grants, es[1..], t, e);
    }
  }

  lemma Onward(q: Queue, grants: seq<Grant>, t: Queue, e: Event)
    requires Reaches(q, grants, t) && Enabled(t, e) && IsPlain(e)
    ensures Reaches(q, grants, Step(t, grants, e))
  {
    hide Enabled, Step;
    var es :| Path(q, grants, es, t);
    PathExtends(q, grants, es, t, e);
  }

  lemma {:induction false} PathRuns(q: Queue, grants: seq<Grant>, es: seq<Event>, t: Queue) returns (ts: seq<O.Tick>)
    requires Path(q, grants, es, t)
    ensures O.Runs(q, ts) && O.After(q, ts) == t
    decreases |es|
  {
    hide Enabled, Step;
    if es == [] {
      ts := [];
    } else {
      var rest := PathRuns(Step(q, grants, es[0]), grants, es[1..], t);
      ts := [O.Tick(grants, es[0])] + rest;
      assert ts[0] == O.Tick(grants, es[0]) && ts[1..] == rest;
    }
  }

  /** What is reached under one grants table is reached by a run. */
  lemma ReachedByRun(q: Queue, grants: seq<Grant>, t: Queue) returns (ts: seq<O.Tick>)
    requires Reaches(q, grants, t)
    ensures O.Runs(q, ts) && O.After(q, ts) == t
  {
    var es :| Path(q, grants, es, t);
    ts := PathRuns(q, grants, es, t);
  }

  // ----- runs of the system, with one cooling-off window -----

  predicate Observes(e: S.Event, window: nat) {
    e.Act? && e.event.CoolingTick? ==> e.event.window == window
  }

  ghost predicate Leads(window: nat, s: S.Sys, es: seq<S.Event>, t: S.Sys) {
    S.Runs(s, es) && S.After(s, es) == t && forall k | 0 <= k < |es| :: Observes(es[k], window)
  }

  ghost predicate Arrives(window: nat, s: S.Sys, t: S.Sys) {
    exists es :: Leads(window, s, es, t)
  }

  lemma Here(window: nat, s: S.Sys)
    ensures Arrives(window, s, s)
  {
    var es: seq<S.Event> := [];
    assert Leads(window, s, es, s);
  }

  lemma Further(window: nat, s: S.Sys, t: S.Sys, e: S.Event)
    requires Arrives(window, s, t) && S.Enabled(t, e) && Observes(e, window)
    ensures Arrives(window, s, S.Step(t, e))
  {
    hide S.Enabled, S.Step;
    var es :| Leads(window, s, es, t);
    S.RunExtends(s, es, e);
    assert Leads(window, s, es + [e], S.Step(t, e));
  }

  lemma ActStep(s: S.Sys, e: Event)
    requires Enabled(s.queue, e) && !e.Promote?
    ensures S.Enabled(s, S.Act(e)) && S.Step(s, S.Act(e)) == S.Sys(Step(s.queue, s.auth.grants, e), s.auth)
  {
    hide Step;
  }

  lemma {:induction false} PathArrives(window: nat, s: S.Sys, t: S.Sys, es: seq<Event>, u: Queue)
    requires Arrives(window, s, t) && Path(t.queue, t.auth.grants, es, u)
    ensures Arrives(window, s, S.Sys(u, t.auth))
    decreases |es|
  {
    hide Enabled, Step, Arrives;
    if es != [] {
      ActStep(t, es[0]);
      Further(window, s, t, S.Act(es[0]));
      PathArrives(window, s, S.Sys(Step(t.queue, t.auth.grants, es[0]), t.auth), es[1..], u);
    }
  }

  /** A stretch without minting is a stretch of a system run. */
  lemma QueueArrives(window: nat, s: S.Sys, t: S.Sys, u: Queue)
    requires Arrives(window, s, t) && Reaches(t.queue, t.auth.grants, u)
    ensures Arrives(window, s, S.Sys(u, t.auth))
  {
    hide Arrives;
    var es :| Path(t.queue, t.auth.grants, es, u);
    PathArrives(window, s, t, es, u);
  }

  /** The run behind it, whose ticker keeps to the window. */
  lemma RunOf(window: nat, s: S.Sys, t: S.Sys) returns (es: seq<S.Event>)
    requires Arrives(window, s, t)
    ensures S.Runs(s, es) && S.After(s, es) == t && C.RunTicks(S.Ticks(s, es), window, false)
  {
    es :| Leads(window, s, es, t);
    TicksObserve(window, s, es);
  }

  lemma {:induction false} TicksObserve(window: nat, s: S.Sys, es: seq<S.Event>)
    requires S.Runs(s, es) && forall k | 0 <= k < |es| :: Observes(es[k], window)
    ensures C.RunTicks(S.Ticks(s, es), window, false)
    decreases |es|
  {
    hide S.Enabled, S.Step;
    if es != [] {
      assert Observes(es[0], window);
      forall k | 0 <= k < |es| - 1 ensures Observes(es[1..][k], window) { assert Observes(es[k + 1], window); }
      TicksObserve(window, S.Step(s, es[0]), es[1..]);
    }
  }

  // ----- a grant, from nothing -----

  function NobodyAsked(): S.Auth { S.Auth([], [], map[], map[], map[], [], []) }

  lemma YesApproves()
    ensures P.IsGrantApproval("yes") && !P.IsEscalation("yes")
  {
    assert P.Normalize("yes") == "yes";
  }

  lemma OneIdIsCanonical(id: string)
    ensures P.Canonical([id]) == [id]
  {
  }

  /** A proposal is scanned, the user says yes, and the confirmation is stored. */
  lemma Approves(window: nat, s: S.Sys, t: S.Sys, action: ActionType, email: string) returns (u: S.Sys)
    requires Arrives(window, s, t) && t.auth == NobodyAsked() && RequiresGrant(action)
    ensures Arrives(window, s, u) && u.queue == t.queue
    ensures u.auth.confs == [S.Conf(action, [email], t.queue.now, None, 0)]
    ensures u.auth.mints == map[] && u.auth.grants == [] && u.auth.source == []
  {
    hide Arrives, P.IsGrantApproval, P.IsEscalation, P.Canonical;
    YesApproves();
    OneIdIsCanonical(email);
    var now := t.queue.now;
    var approval := S.Approval(action, [email], now);
    Further(window, s, t, S.ScanProposal("agent", action, email));
    var scanned := t.(auth := t.auth.(approvals := map["agent" := approval]));
    Further(window, s, scanned, S.UserSays(0, "agent", "yes"));
    var said := S.Step(scanned, S.UserSays(0, "agent", "yes"));
    assert said.auth.turns == map[0 := S.Turn(action, [email], 0)];
    Further(window, s, said, S.Confirm(0));
    u := S.Step(said, S.Confirm(0));
  }

  /** A mint is asked for, and finds the confirmation. */
  lemma FindsConfirmation(window: nat, s: S.Sys, t: S.Sys, action: ActionType, email: string, expiry: Stamp, at: int)
    returns (u: S.Sys)
    requires Arrives(window, s, t) && S.IsMintable(action, [email], expiry, t.queue.now)
    requires t.auth.confs == [S.Conf(action, [email], at, None, 0)] && t.queue.now < at + CONFIRMATION_TTL
    requires t.auth.mints == map[]
    ensures Arrives(window, s, u) && u.queue == t.queue
    ensures u.auth == t.auth.(mints := map[0 := S.Mint(S.Found, action, [email], expiry, t.queue.now, 0)])
  {
    hide Arrives, P.Canonical;
    OneIdIsCanonical(email);
    var ask := S.Ask(0, action, [email], expiry);
    Further(window, s, t, ask);
    var v := S.Step(t, ask);
    assert v.auth.mints == map[0 := S.Mint(S.Validated, action, [email], expiry, t.queue.now, 0)];
    assert S.Matches(t.auth.confs[0], action, [email]);
    assert S.FindConf(t.auth.confs, action, [email]) == Some(0);
    Further(window, s, v, S.MintNext(0));
    u := S.Step(v, S.MintNext(0));
  }

  /** The grant is minted on it. */
  lemma Minted(window: nat, s: S.Sys, t: S.Sys, action: ActionType, email: string, expiry: Stamp, at: int)
    returns (u: S.Sys)
    requires Arrives(window, s, t) && S.IsMintable(action, [email], expiry, t.queue.now)
    requires t.auth.confs == [S.Conf(action, [email], at, None, 0)] && t.queue.now < at + CONFIRMATION_TTL
    requires t.auth.mints == map[] && t.auth.grants == [] && t.auth.source == []
    ensures Arrives(window, s, u) && u.auth.grants == [Grant(action, [email], expiry, t.queue.now, None)]
    ensures u.queue == t.queue.(rows := PromoteGranted(t.queue.rows, action))
    ensures u.auth.source == [0] && |u.auth.confs| == 1 && u.auth.confs[0].createdAt == at
  {
    hide Arrives, P.Canonical;
    var v := FindsConfirmation(window, s, t, action, email, expiry, at);
    Further(window, s, v, S.MintNext(0));
    var w := S.Step(v, S.MintNext(0));
    assert w.auth.mints[0] == S.Mint(S.Consumed, action, [email], expiry, t.queue.now, 0);
    Further(window, s, w, S.MintNext(0));
    u := S.Step(w, S.MintNext(0));
  }

  /** Both at one moment: nothing of the queue changes but the rows that waited for the grant. */
  lemma MintsGrant(window: nat, s: S.Sys, t: S.Sys, action: ActionType, email: string, expiry: Stamp) returns (u: S.Sys)
    requires Arrives(window, s, t) && t.auth == NobodyAsked() && S.IsMintable(action, [email], expiry, t.queue.now)
    ensures Arrives(window, s, u) && u.auth.grants == [Grant(action, [email], expiry, t.queue.now, None)]
    ensures u.queue == t.queue.(rows := PromoteGranted(t.queue.rows, action))
  {
    hide Arrives;
    u := Approves(window, s, t, action, email);
    u := Minted(window, s, u, action, email, expiry, t.queue.now);
  }
}
