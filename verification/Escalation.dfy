/** `authorize_sensitive_dispatch` and the boundary's escalation step, statement by statement, with
    everybody else running in between. */
module Escalation {
  import opened Actions
  import opened Sensitive
  import opened Timestamps

  datatype Actor = Caller(c: nat) | Boundary(t: nat)

  function ActorOf(e: Event): Option<Actor> {
    match e
    case Says(t, _) => Some(Boundary(t))
    case TurnNext(t) => Some(Boundary(t))
    case Ask(c, _, _, _) => Some(Caller(c))
    case CallNext(c) => Some(Caller(c))
    case _ => None
  }

  /** Only its own steps move an actor. */
  predicate Stands(me: Actor, w: World, v: World) {
    match me
    case Caller(c) => if c in w.calls then c in v.calls && v.calls[c] == w.calls[c] else c !in v.calls
    case Boundary(t) => if t in w.turns then t in v.turns && v.turns[t] == w.turns[t] else t !in v.turns
  }

  predicate IsAt(w: World, c: nat, stage: Stage, email: string, task: string) {
    c in w.calls && w.calls[c] == Call(stage, email, task, false)
  }

  /** One step: the state it met, and whether the code at hand took it. */
  datatype Moment = Moment(before: World, event: Event, mine: bool)

  /** The moments lead from the start to the state. */
  ghost predicate Linked(start: World, trace: seq<Moment>, w: World)
    decreases |trace|
  {
    if trace == [] then start == w
    else
      var m := trace[|trace| - 1];
      Enabled(m.before, m.event) && Step(m.before, m.event) == w && Linked(start, trace[..|trace| - 1], m.before)
  }

  lemma LinkedExtends(start: World, trace: seq<Moment>, w: World, m: Moment)
    requires Linked(start, trace, w) && m.before == w && Enabled(w, m.event)
    ensures Linked(start, trace + [m], Step(w, m.event))
  {
    assert (trace + [m])[..|trace|] == trace;
  }

  /** Every write came within that time of the clock reading it follows. */
  ghost predicate IsPunctual(trace: seq<Moment>, latency: nat) {
    forall k | 0 <= k < |trace| :: IsPrompt(trace[k].before, trace[k].event, latency)
  }

  /** So they are a run, and a prompt one if they are punctual. */
  lemma {:induction false} LinkedRuns(start: World, trace: seq<Moment>, w: World) returns (es: seq<Event>)
    requires Linked(start, trace, w)
    ensures IsRun(start, es) && After(start, es) == w && |es| == |trace|
    ensures forall latency: nat | IsPunctual(trace, latency) :: AllPrompt(start, es, latency)
    decreases |trace|
  {
    hide Enabled, Step, IsPrompt;
    if trace == [] {
      es := [];
    } else {
      var m, before := trace[|trace| - 1], trace[..|trace| - 1];
      var run := LinkedRuns(start, before, m.before);
      RunExtends(start, run, m.event);
      es := run + [m.event];
      forall latency: nat | IsPunctual(trace, latency) ensures AllPrompt(start, es, latency) {
        assert IsPunctual(before, latency);
        PromptExtends(start, run, m.event, latency);
      }
    }
  }

  /** The steps of the code at hand. */
  ghost function Mine(trace: seq<Moment>): seq<Moment> {
    if trace == [] then []
    else
      var m := trace[|trace| - 1];
      Mine(trace[..|trace| - 1]) + if m.mine then [m] else []
  }

  lemma MineGrows(trace: seq<Moment>, m: Moment)
    ensures Mine(trace + [m]) == Mine(trace) + if m.mine then [m] else []
  {
    assert (trace + [m])[..|trace|] == trace;
  }

  // ----- what each answer depends on -----

  function Pair(stage: Stage, email: string, task: string): Call { Call(stage, email, task, false) }

  /** The newest unconsumed confirmation of the pair, if it is less than ten minutes old. */
  function FreshConf(w: World, email: string, task: string): (i: Option<nat>)
    ensures i.Some? ==> IsNewest(w.confs, i.value, email, task)
    ensures forall k: nat | IsNewest(w.confs, k, email, task) ::
              i == Some(k) <==> w.now - w.confs[k].createdAt < 10 * MINUTE
  {
    var i := FindConf(w.confs, Pair(Finding, email, task));
    if i.Some? && w.now < w.confs[i.value].createdAt + TTL then i else None
  }

  predicate IsUnconsumed(w: World, conf: nat) { conf < |w.confs| && !w.confs[conf].consumed }

  predicate IsArmed(w: World) {
    w.armed.Some? && w.armed.value < |w.arms| && w.now - w.arms[w.armed.value].armedAt < 10 * MINUTE
  }

  /** A confirmation is won exactly if one is found and nobody has consumed it by the update. */
  predicate ConsumeRan(own: seq<Moment>, c: nat, email: string, task: string, won: bool) {
    && |own| >= 1 && own[0].event == CallNext(c)
    && var found := FreshConf(own[0].before, email, task);
       if found.None? then |own| == 1 && !won
       else |own| == 2 && own[1].event == CallNext(c) && (won <==> IsUnconsumed(own[1].before, found.value))
  }

  /** The fresh half: a confirmation of the pair, or else the arm; and then the marker. */
  predicate FreshRan(own: seq<Moment>, c: nat, email: string, task: string, ok: bool) {
    exists won: bool, n: nat | n <= |own| ::
      && ConsumeRan(own[..n], c, email, task, won)
      && if won then ok && |own| == n + 1 && own[n].event == CallNext(c)
         else
           && |own| == n + (if ok then 2 else 1) && own[n].event == CallNext(c)
           && (ok <==> IsArmed(own[n].before)) && (ok ==> own[n + 1].event == CallNext(c))
  }

  /** True exactly if the peek finds a live marker of this pair, or else a confirmation of it is won, or
      else the arm is live when it is claimed. */
  predicate AuthorizeRan(own: seq<Moment>, c: nat, email: string, task: string, ok: bool) {
    && |own| >= 2 && own[0].event == Ask(c, email, task, false) && own[1].event == CallNext(c)
    && if LiveMarker(own[1].before, Pair(Peeking, email, task)).Some? then ok && |own| == 2
       else FreshRan(own[2..], c, email, task, ok)
  }

  /** It comes no more than twenty minutes and twice the latency of its writes after its phrase. */
  ghost predicate IsInTime(w: World, trace: seq<Moment>, s: Sent)
    requires IsAuthorized(w, s)
  {
    forall latency: nat | IsPunctual(trace, latency) :: 0 <= Age(w, s) <= MaxAge(latency)
  }

  class Handshake {
    var state: World
    ghost const start: World
    ghost var trace: seq<Moment>

    ghost predicate Valid()
      reads this
    {
      IsStart(start) && Linked(start, trace, state)
    }

    constructor (initial: World)
      requires IsStart(initial)
      ensures Valid() && state == initial && trace == []
    {
      state, start, trace := initial, initial, [];
    }

    /** Nothing recorded at the earlier moment is lost. */
    ghost predicate Continues(earlier: seq<Moment>)
      reads this
    {
      earlier <= trace
    }

    ghost function Own(): seq<Moment>
      reads this
    {
      Mine(trace)
    }

    lemma Known()
      requires Valid()
      ensures Heard(state) && Backed(state) && Single(state)
      ensures forall latency: nat | IsPunctual(trace, latency) :: Timely(state, latency)
    {
      var es := LinkedRuns(start, trace, state);
      assert IsStart(start);
      hide *;
      StartIsSound(start, 0);
      RunKeepsSound(start, es);
      forall latency: nat | IsPunctual(trace, latency) ensures Timely(state, latency) {
        StartIsSound(start, latency);
        RunKeepsTimely(start, es, latency);
      }
    }

    /** The latest dispatch is authorized, and in time. */
    lemma LastIsAuthorized()
      requires Valid() && state.sent != []
      ensures var s := state.sent[|state.sent| - 1]; IsAuthorized(state, s) && IsInTime(state, trace, s)
    {
      Known();
      var s := state.sent[|state.sent| - 1];
      hide Valid, Heard, Backed, Single, Timely, IsAuthorized, Age, MaxAge, IsPunctual;
      DispatchIsAuthorized(state, |state.sent| - 1);
      forall latency: nat | IsPunctual(trace, latency) ensures 0 <= Age(state, s) <= MaxAge(latency) {
        AgeIsBounded(state, s, latency);
      }
    }

    method Take(e: Event, mine: bool)
      requires Valid() && Enabled(state, e)
      modifies this
      ensures Valid() && state == Step(old(state), e) && trace == old(trace) + [Moment(old(state), e, mine)]
    {
      var m := Moment(state, e, mine);
      LinkedExtends(start, trace, state, m);
      state := Step(state, e);
      trace := trace + [m];
    }

    method Do(e: Event)
      requires Valid() && Enabled(state, e)
      modifies this
      ensures Valid() && state == Step(old(state), e)
      ensures Continues(old(trace)) && Own() == old(Own()) + [Moment(old(state), e, true)]
    {
      MineGrows(trace, Moment(state, e, true));
      Take(e, true);
    }

    /** Between two of `me`'s statements anybody else takes any number of steps. */
    method Yield(me: Actor)
      requires Valid()
      modifies this
      ensures Valid() && Stands(me, old(state), state) && Continues(old(trace)) && Own() == old(Own())
    {
      hide Linked, Mine;
      var steps: nat := *;
      var i := 0;
      while i < steps
        invariant Valid() && Stands(me, old(state), state) && Continues(old(trace)) && Own() == old(Own())
      {
        var e: Event := *;
        if Enabled(state, e) && ActorOf(e) != Some(me) {
          MineGrows(trace, Moment(state, e, false));
          Take(e, false);
        }
        i := i + 1;
      }
    }

    /** The call's next statement. */
    method Next(c: nat)
      requires Valid() && c in state.calls
      modifies this
      ensures Valid() && Continues(old(trace)) && Own() == old(Own()) + [Moment(old(state), CallNext(c), true)]
      ensures var next := CallAfter(old(state), old(state).calls[c]);
              if next.Some? then c in state.calls && state.calls[c] == next.value else c !in state.calls
      ensures state.sent == SentAfter(old(state), CallNext(c))
    {
      hide Linked, Mine;
      Do(CallNext(c));
    }

    /** `consume_sensitivity_confirmation` */
    method ConsumeConfirmation(c: nat, email: string, task: string) returns (won: bool, ghost own: seq<Moment>)
      requires Valid() && IsAt(state, c, Finding, email, task)
      modifies this
      ensures Valid() && Continues(old(trace)) && Own() == old(Own()) + own && c in state.calls
      ensures ConsumeRan(own, c, email, task, won)
      ensures if won then state.calls[c].stage.Marking? && IsAt(state, c, state.calls[c].stage, email, task)
              else IsAt(state, c, Disarming, email, task)
    {
      hide Linked, Mine;
      Yield(Caller(c));
      own := [Moment(state, CallNext(c), true)];
      var call := Pair(Finding, email, task);
      var i := FindConf(state.confs, call);
      var found := i.Some? && state.now < state.confs[i.value].createdAt + TTL;
      Next(c);
      if !found { return false, own; }
      Yield(Caller(c));
      own := own + [Moment(state, CallNext(c), true)];
      won := i.value < |state.confs| && !state.confs[i.value].consumed;
      Next(c);
    }

    /** `consume_escalation_arm` */
    method ConsumeArm(c: nat, email: string, task: string) returns (won: bool, ghost last: Moment)
      requires Valid() && IsAt(state, c, Disarming, email, task)
      modifies this
      ensures Valid() && Continues(old(trace)) && Own() == old(Own()) + [last]
      ensures last.event == CallNext(c) && (won <==> IsArmed(last.before))
      ensures if won
              then c in state.calls && state.calls[c].stage.Marking? &&
                  IsAt(state, c, state.calls[c].stage, email, task)
              else c !in state.calls
    {
      hide Linked, Mine;
      Yield(Caller(c));
      last := Moment(state, CallNext(c), true);
      won := IsArmed(state);
      Next(c);
    }

    /** The marker of a fresh authorization, with which the dispatch goes out. */
    method LeaveMarker(c: nat, email: string, task: string) returns (ghost last: Moment)
      requires Valid() && c in state.calls && state.calls[c].stage.Marking?
      requires IsAt(state, c, state.calls[c].stage, email, task)
      modifies this
      ensures Valid() && Continues(old(trace)) && Own() == old(Own()) + [last] && last.event == CallNext(c)
      ensures c !in state.calls && IsSentFor(state, trace, email, task)
    {
      hide Linked, Mine, IsAuthorized, IsInTime;
      Yield(Caller(c));
      last := Moment(state, CallNext(c), true);
      Next(c);
      LastIsAuthorized();
    }

    /** Neither a peek nor a refusal: the call ends with a fresh authorization or without. */
    method AuthorizeFresh(c: nat, email: string, task: string) returns (ok: bool, ghost own: seq<Moment>)
      requires Valid() && IsAt(state, c, Finding, email, task)
      modifies this
      ensures Valid() && Continues(old(trace)) && Own() == old(Own()) + own && c !in state.calls
      ensures FreshRan(own, c, email, task, ok) && (ok ==> IsSentFor(state, trace, email, task))
    {
      hide Linked, Mine, ConsumeRan, IsSentFor;
      ghost var first, arm;
      ok, first := ConsumeConfirmation(c, email, task);
      own := first;
      assert own[..|first|] == first;
      ghost var won := ok;
      if !ok {
        ok, arm := ConsumeArm(c, email, task);
        own := first + [arm];
        assert own[..|first|] == first && ConsumeRan(own[..|first|], c, email, task, won);
        if !ok { return; }
      }
      ghost var last := LeaveMarker(c, email, task);
      own := own + [last];
      assert own[..|first|] == first && ConsumeRan(own[..|first|], c, email, task, won);
    }

    /** Peek a standing marker, else consume a confirmation, else the arm, and leave a marker. What it
        lets through is on record for exactly this email and task, authorized by a user's phrase. */
    method AuthorizeSensitiveDispatch(c: nat, email: string, task: string) returns (ok: bool, ghost own: seq<Moment>)
      requires Valid() && c !in state.calls
      modifies this
      ensures Valid() && Continues(old(trace)) && Own() == old(Own()) + own && c !in state.calls
      ensures AuthorizeRan(own, c, email, task, ok) && (ok ==> IsSentFor(state, trace, email, task))
    {
      hide Linked, Mine, IsAuthorized, IsInTime, FreshRan;
      ghost var ask := Moment(state, Ask(c, email, task, false), true);
      Do(Ask(c, email, task, false));
      Yield(Caller(c));
      ghost var peek := Moment(state, CallNext(c), true);
      var standing := LiveMarker(state, Pair(Peeking, email, task));
      Next(c);
      own := [ask, peek];
      if standing.Some? {
        LastIsAuthorized();
        return true, own;
      }
      ghost var rest;
      ok, rest := AuthorizeFresh(c, email, task);
      own := [ask, peek] + rest;
      assert own[2..] == rest;
    }

    /** The boundary on an escalation phrase: the pending refusal is claimed, and confirmed exactly if it
        is there and has not lapsed; the arm is set either way. */
    method Escalate(t: nat, caller: string) returns (confirmed: Option<(string, string)>, ghost own: seq<Moment>)
      requires Valid() && t !in state.turns
      modifies this
      ensures Valid() && Continues(old(trace)) && Own() == old(Own()) + own && t !in state.turns
      ensures state.armed.Some? && state.armed.value < |state.arms| &&
          state.arms[state.armed.value].armedAt == state.now
      ensures |own| == (if confirmed.Some? then 4 else 3) && own[0].event == Says(t, caller)
      ensures forall k | 0 < k < |own| :: own[k].event == TurnNext(t)
      ensures confirmed == PendingRefusal(own[1].before, caller)
    {
      hide Linked, Mine;
      own := [Moment(state, Says(t, caller), true)];
      Do(Says(t, caller));
      Yield(Boundary(t));
      confirmed := PendingRefusal(state, caller);
      own := own + [Moment(state, TurnNext(t), true)];
      Do(TurnNext(t));
      Yield(Boundary(t));
      if confirmed.Some? {
        own := own + [Moment(state, TurnNext(t), true)];
        Do(TurnNext(t));
        Yield(Boundary(t));
      }
      own := own + [Moment(state, TurnNext(t), true)];
      Do(TurnNext(t));
    }
  }

  /** The caller's refusal that an escalation phrase would confirm. */
  function PendingRefusal(w: World, caller: string): Option<(string, string)> {
    if caller in w.refusals && w.now - w.refusals[caller].createdAt < 10 * MINUTE
    then Some((w.refusals[caller].email, w.refusals[caller].task)) else None
  }

  /** The latest dispatch on record is of this pair, authorized, and in time. */
  ghost predicate IsSentFor(w: World, trace: seq<Moment>, email: string, task: string) {
    && w.sent != []
    && var s := w.sent[|w.sent| - 1];
       s.email == email && s.task == task && IsAuthorized(w, s) && IsInTime(w, trace, s)
  }
}
