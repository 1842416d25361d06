/** The database and the mailbox as the code sees them: one mutable state, changed one statement at
    a time by whoever runs, and by everybody else in between. */
module Database {
  import opened Actions
  import opened Tables
  import opened System
  import A = Approvals
  import O = Ownership
  import Q = Queue

  /** Who takes a step. */
  datatype Actor = Drainer(d: nat) | Caller(p: nat) | Minter(m: nat) | Boundary(turn: nat) | Anyone

  function ActorOf(e: Event): Actor {
    match e
    case Act(a) => (match a
      case Drain(d, _) => Drainer(d)
      case Revert(p, _) => Caller(p)
      case Replay(p, _) => Caller(p)
      case Continue(p) => Caller(p)
      case _ => Anyone)
    case UserSays(t, _, _) => Boundary(t)
    case Confirm(t) => Boundary(t)
    case Ask(m, _, _, _) => Minter(m)
    case MintNext(m) => Minter(m)
    case _ => Anyone
  }

  /** Where `me` stands is as it was: only its own steps move it. */
  predicate Stands(me: Actor, s: Sys, t: Sys) {
    match me
    case Drainer(d) => d < |s.queue.drainers| ==> d < |t.queue.drainers| && t.queue.drainers[d] == s.queue.drainers[d]
    case Caller(p) =>
      if p in s.queue.calls then p in t.queue.calls && t.queue.calls[p] == s.queue.calls[p] else p !in t.queue.calls
    case Minter(m) =>
      if m in s.auth.mints then m in t.auth.mints && t.auth.mints[m] == s.auth.mints[m] else m !in t.auth.mints
    case Boundary(n) =>
      if n in s.auth.turns then n in t.auth.turns && t.auth.turns[n] == s.auth.turns[n] else n !in t.auth.turns
    case Anyone => true
  }

  /** What an actor may rely on while others run. */
  predicate Since(me: Actor, s: Sys, t: Sys) {
    Stands(me, s, t) && s.queue.now <= t.queue.now && SpecsStay(s.queue.rows, t.queue.rows)
  }

  /** Rows are only added, and what they ask for is fixed. */
  predicate SpecsStay(rows: seq<Row>, rows': seq<Row>) {
    |rows| <= |rows'| && forall i | 0 <= i < |rows| :: rows'[i].spec == rows[i].spec
  }

  lemma OthersStand(me: Actor, s: Sys, e: Event)
    requires Enabled(s, e) && (ActorOf(e) != me || me.Anyone?)
    ensures Stands(me, s, Step(s, e))
  {
    QueueSide(s, e);
  }

  lemma RowsRemain(s: Sys, e: Event)
    requires Enabled(s, e) && A.Invariant(s)
    ensures SpecsStay(s.queue.rows, Step(s, e).queue.rows) && s.queue.now <= Step(s, e).queue.now
  {
    var q := QueueEvent(s, e);
    if q.Some? {
      A.NowAdvances(s.queue, s.auth.grants, q.value);
      if q.value.Drain? {
        var x := s.queue.drainers[q.value.d];
        assert O.Ready(s.queue.rows, x);
        O.DrainSteady(s.queue, s.auth.grants, x, q.value.choice);
      } else {
        O.OthersSpare(s.queue, s.auth.grants, q.value);
      }
    }
  }

  // ----- what has happened -----

  /** One step: the state it met, and whether the code at hand took it. */
  datatype Moment = Moment(before: Sys, event: Event, mine: bool)

  /** The moments lead from the start to the state. */
  ghost predicate Linked(start: Sys, trace: seq<Moment>, state: Sys)
    decreases |trace|
  {
    if trace == [] then start == state
    else
      var m := trace[|trace| - 1];
      Enabled(m.before, m.event) && Step(m.before, m.event) == state && Linked(start, trace[..|trace| - 1], m.before)
  }

  lemma LinkedExtends(start: Sys, trace: seq<Moment>, state: Sys, m: Moment)
    requires Linked(start, trace, state) && m.before == state && Enabled(state, m.event)
    ensures Linked(start, trace + [m], Step(state, m.event))
  {
    assert (trace + [m])[..|trace|] == trace;
  }

  /** So they are a run of the system. */
  lemma {:induction false} LinkedRuns(start: Sys, trace: seq<Moment>, state: Sys) returns (es: seq<Event>)
    requires Linked(start, trace, state)
    ensures Runs(start, es) && After(start, es) == state && |es| == |trace|
    decreases |trace|
  {
    hide Enabled, Step;
    if trace == [] {
      es := [];
    } else {
      var m := trace[|trace| - 1];
      es := LinkedRuns(start, trace[..|trace| - 1], m.before);
      RunExtends(start, es, m.event);
      es := es + [m.event];
    }
  }

  /** The steps of the code at hand. */
  ghost function Mine(trace: seq<Moment>): seq<Moment> {
    if trace == [] then []
    else
      var m := trace[|trace| - 1];
      Mine(trace[..|trace| - 1]) + if m.mine then [m] else []
  }

  lemma MineGrows(trace: seq<Moment>, m: Moment)
    ensures Mine(trace + [m]) == Mine(trace) + if m.mine then [m] else []
  {
    assert (trace + [m])[..|trace|] == trace;
  }

  // ----- what one drainer has done -----

  datatype Written = Written(id: nat, status: Status, reason: string)

  /** A drainer's pause reads at the start of a tick, its batches, the rows it tried to claim and the
      rows it claimed; of those, the ones it met a pause with, gave back, had an exception with, wrote
      a verdict of, or lost in the write of last resort. */
  datatype Book = Book(
    gates: seq<bool>, polls: seq<seq<Picked>>, tries: seq<nat>, claims: seq<nat>,
    pauses: seq<nat>, releases: seq<nat>, raises: seq<nat>, verdicts: seq<Written>, losses: seq<nat>)
  {
    function Pause(id: nat): Book { this.(pauses := pauses + [id]) }

    function Release(id: nat): Book { this.(releases := releases + [id]) }

    function Raise(id: nat): Book { this.(raises := raises + [id]) }

    function Verdict(id: nat, status: Status, reason: string): Book {
      this.(verdicts := verdicts + [Written(id, status, reason)])
    }

    function Lose(id: nat): Book { this.(losses := losses + [id]) }

    function Then(b: Book): Book {
      Book(gates + b.gates, polls + b.polls, tries + b.tries, claims + b.claims, pauses + b.pauses,
           releases + b.releases, raises + b.raises, verdicts + b.verdicts, losses + b.losses)
    }
  }

  const EMPTY_BOOK := Book([], [], [], [], [], [], [], [], [])

  function Posted(b: Book, q: Q.Queue, x: Q.Drainer, c: Q.Choice): Book {
    match x
    case Idle => b.(gates := b.gates + [c == Q.Fail || q.paused])
    case Polled => if c.Pick? then b.(polls := b.polls + [c.batch]) else b
    case Looping(batch, _) =>
      if batch == [] || c != Q.Go then b
      else b.(tries := b.tries + [batch[0].id],
              claims := if Q.IsClaimable(q.rows, batch[0]) then b.claims + [batch[0].id] else b.claims)
    case Working(stage, j, _, _) =>
      if c == Q.Throw || (stage.Recording? && c == Q.Go && j.id in q.history) then b.Raise(j.id)
      else if c == Q.Lose then b.Lose(j.id)
      else if stage.Claimed? && c != Q.Crash && (c == Q.Fail || q.paused) then b.Pause(j.id)
      else if c != Q.Go then b
      else match stage
        case Releasing => b.Release(j.id)
        case Marking => b.Verdict(j.id, Applied, "")
        case Failing | Recovering => b.Verdict(j.id, Failed, j.reason)
        case Waiting => b.Verdict(j.id, PendingGrant, "")
        case _ => b
  }

  ghost function Kept(trace: seq<Moment>, d: nat): Book {
    if trace == [] then EMPTY_BOOK
    else
      var m, b := trace[|trace| - 1], Kept(trace[..|trace| - 1], d);
      if ActorOf(m.event) == Drainer(d) && d < |m.before.queue.drainers|
      then Posted(b, m.before.queue, m.before.queue.drainers[d], m.event.event.choice) else b
  }

  lemma KeptGrows(trace: seq<Moment>, m: Moment, d: nat)
    ensures Kept(trace + [m], d) ==
            if ActorOf(m.event) == Drainer(d) && d < |m.before.queue.drainers|
            then Posted(Kept(trace, d), m.before.queue, m.before.queue.drainers[d], m.event.event.choice)
            else Kept(trace, d)
  {
    assert (trace + [m])[..|trace|] == trace;
  }

  class Database {
    var state: Sys
    ghost const start: Sys
    ghost var trace: seq<Moment>

    /** The state is where a run from an unapproved, undispatched start has got to. */
    ghost predicate Valid()
      reads this
    {
      A.Start(start) && Linked(start, trace, state)
    }

    constructor (initial: Sys)
      requires A.Start(initial)
      ensures Valid() && state == initial && trace == []
    {
      state, start, trace := initial, initial, [];
    }

    /** The state before the moment `i`, or now. */
    ghost function StateAt(i: nat): Sys
      reads this
    {
      if i < |trace| then trace[i].before else state
    }

    /** Nothing recorded at the earlier moment is lost, and that is where the rest starts. */
    ghost predicate Continues(earlier: seq<Moment>, was: Sys)
      reads this
    {
      earlier <= trace && StateAt(|earlier|) == was
    }

    ghost function Own(): seq<Moment>
      reads this
    {
      Mine(trace)
    }

    /** What drainer `d` has done so far. */
    ghost function BookOf(d: nat): Book
      reads this
    {
      Kept(trace, d)
    }

    lemma Known()
      requires Valid()
      ensures A.Invariant(state)
    {
      var es := LinkedRuns(start, trace, state);
      A.StartIsSound(start);
      A.RunKeepsInvariant(start, es);
    }

    method Take(e: Event, mine: bool)
      requires Valid() && Enabled(state, e)
      modifies this
      ensures Valid() && state == Step(old(state), e) && trace == old(trace) + [Moment(old(state), e, mine)]
    {
      var m := Moment(state, e, mine);
      LinkedExtends(start, trace, state, m);
      state := Step(state, e);
      trace := trace + [m];
    }

    /** One statement, one clock reading or one Graph call. */
    method Do(e: Event)
      requires Valid() && Enabled(state, e)
      modifies this
      ensures Valid() && state == Step(old(state), e) && trace == old(trace) + [Moment(old(state), e, true)]
      ensures Continues(old(trace), old(state)) && Own() == old(Own()) + [Moment(old(state), e, true)]
    {
      MineGrows(trace, Moment(state, e, true));
      Take(e, true);
    }

    /** Between two of `me`'s statements anybody else takes any number of steps. */
    method Yield(me: Actor)
      requires Valid()
      modifies this
      ensures Valid() && Since(me, old(state), state)
      ensures Continues(old(trace), old(state)) && Own() == old(Own())
      ensures me.Drainer? ==> BookOf(me.d) == old(BookOf(me.d))
    {
      hide Linked, Step, Enabled, Since, Mine, Kept;
      assert Since(me, state, state) by { Unmoved(me, state); }
      var steps: nat := *;
      var i := 0;
      while i < steps
        invariant Valid() && Since(me, old(state), state)
        invariant Continues(old(trace), old(state)) && Own() == old(Own())
        invariant me.Drainer? ==> BookOf(me.d) == old(BookOf(me.d))
      {
        var e: Event := *;
        if Enabled(state, e) && (me.Anyone? || ActorOf(e) != me) {
          Known();
          OneMore(me, old(state), state, e);
          MineGrows(trace, Moment(state, e, false));
          if me.Drainer? { KeptGrows(trace, Moment(state, e, false), me.d); }
          Take(e, false);
        }
        i := i + 1;
      }
    }
  }

  lemma Unmoved(me: Actor, s: Sys)
    ensures Since(me, s, s)
  {
  }

  lemma OneMore(me: Actor, s: Sys, t: Sys, e: Event)
    requires Since(me, s, t) && Enabled(t, e) && A.Invariant(t) && (me.Anyone? || ActorOf(e) != me)
    ensures Since(me, s, Step(t, e))
  {
    OthersStand(me, t, e);
    RowsRemain(t, e);
    hide Step, Enabled;
  }
}
