/** A reversible Tier-1 action that is no move, and its revert: what becomes of the flag or category. */
module Flags {
  import opened Actions
  import opened Tables
  import opened Queue
  import opened Ownership
  import opened Reverts
  import opened RoundTrip

  /** The read flag; and a local category, as a row's payload names it. */
  datatype Trait = IsRead | Category(payload: Payload)

  datatype Touch = Touch(email: string, what: Trait, on: bool, cause: Option<nat>)

  /** The traits that are set, and what has set or cleared them; no step of the queue reads either. */
  datatype Mail = Mail(queue: Queue, traits: set<(string, Trait)>, touches: seq<Touch>)

  /** A step of the queue, or somebody else setting or clearing a trait. */
  datatype Doing = Works(tick: Tick) | Touches(email: string, what: Trait, on: bool)

  /** What an accepted row asks for: the body of its PATCH, or its category. */
  function Effect(s: Spec): Option<(Trait, bool)> {
    match s.action
    case MarkRead => Some((IsRead, true))
    case MarkUnread => Some((IsRead, false))
    case AddLocalCategory => Some((Category(s.payload), true))
    case RemoveLocalCategory => Some((Category(s.payload), false))
    case _ => None
  }

  predicate IsTagging(s: Spec) { s.emailId.Some? && Effect(s).Some? }

  /** The adapter's call is carried out, whether or not its reply comes back. */
  predicate Lands(q: Queue, e: Event) {
    && e.Drain? && e.d < |q.drainers| && Sends(q.drainers[e.d], e.choice) && e.choice != Fail
    && IsTagging(q.drainers[e.d].job.spec)
  }

  function TouchOf(q: Queue, e: Event): Touch
    requires Lands(q, e)
  {
    var j := q.drainers[e.d].job;
    Touch(j.spec.emailId.value, Effect(j.spec).value.0, Effect(j.spec).value.1, Some(j.id))
  }

  function Put(traits: set<(string, Trait)>, t: Touch): set<(string, Trait)> {
    if t.on then traits + {(t.email, t.what)} else traits - {(t.email, t.what)}
  }

  function Touched(m: Mail, t: Touch): Mail {
    m.(traits := Put(m.traits, t), touches := m.touches + [t])
  }

  predicate Can(m: Mail, d: Doing) { d.Works? ==> Enabled(m.queue, d.tick.event) }

  function Do(m: Mail, d: Doing): Mail
    requires Can(m, d)
  {
    match d
    case Works(t) =>
      var n := m.(queue := Step(m.queue, t.grants, t.event));
      if Lands(m.queue, t.event) then Touched(n, TouchOf(m.queue, t.event)) else n
    case Touches(email, what, on) => Touched(m, Touch(email, what, on, None))
  }

  ghost predicate Happen(m: Mail, ds: seq<Doing>)
    decreases |ds|
  {
    ds == [] || (Can(m, ds[0]) && Happen(Do(m, ds[0]), ds[1..]))
  }

  ghost function Afterwards(m: Mail, ds: seq<Doing>): Mail
    requires Happen(m, ds)
    decreases |ds|
  {
    if ds == [] then m else Afterwards(Do(m, ds[0]), ds[1..])
  }

  /** The steps of the queue among them. */
  function Ticks(ds: seq<Doing>): seq<Tick> {
    if ds == [] then [] else (if ds[0].Works? then [ds[0].tick] else []) + Ticks(ds[1..])
  }

  /** They are a run of the queue, whatever the traits. */
  lemma {:induction false} HappeningIsARun(m: Mail, ds: seq<Doing>)
    requires Happen(m, ds)
    ensures Runs(m.queue, Ticks(ds)) && After(m.queue, Ticks(ds)) == Afterwards(m, ds).queue
    decreases |ds|
  {
    hide Step, Enabled;
    if ds != [] {
      var rest := Ticks(ds[1..]);
      HappeningIsARun(Do(m, ds[0]), ds[1..]);
      if ds[0].Works? {
        assert Ticks(ds)[0] == ds[0].tick && Ticks(ds)[1..] == rest;
      } else {
        assert Ticks(ds) == rest;
      }
    }
  }

  // ----- a trait is what the last touch made it -----

  function Latest(start: set<(string, Trait)>, xs: seq<Touch>, email: string, what: Trait): bool {
    if xs == [] then (email, what) in start
    else if xs[|xs| - 1].email == email && xs[|xs| - 1].what == what then xs[|xs| - 1].on
    else Latest(start, xs[..|xs| - 1], email, what)
  }

  ghost predicate AreLatest(start: set<(string, Trait)>, m: Mail) {
    forall email, what :: (email, what) in m.traits <==> Latest(start, m.touches, email, what)
  }

  lemma LatestAppend(start: set<(string, Trait)>, xs: seq<Touch>, t: Touch, email: string, what: Trait)
    ensures Latest(start, xs + [t], email, what) ==
            if t.email == email && t.what == what then t.on else Latest(start, xs, email, what)
  {
    assert (xs + [t])[..|xs|] == xs;
  }

  lemma {:induction false} Untouched(start: set<(string, Trait)>, xs: seq<Touch>, from: nat, email: string, what: Trait)
    requires from <= |xs|
    requires forall k | from <= k < |xs| :: xs[k].email != email || xs[k].what != what
    ensures Latest(start, xs, email, what) == Latest(start, xs[..from], email, what)
  {
    if from < |xs| {
      assert xs[..|xs| - 1][..from] == xs[..from];
      Untouched(start, xs[..|xs| - 1], from, email, what);
    } else {
      assert xs[..from] == xs;
    }
  }

  lemma DoKeepsLatest(start: set<(string, Trait)>, m: Mail, d: Doing)
    requires Can(m, d) && AreLatest(start, m)
    ensures AreLatest(start, Do(m, d))
  {
    hide Step, Lands, Effect, Latest;
    var n := Do(m, d);
    if n.touches != m.touches {
      var t := n.touches[|m.touches|];
      forall email, what ensures (email, what) in n.traits <==> Latest(start, n.touches, email, what) {
        LatestAppend(start, m.touches, t, email, what);
      }
    }
  }

  // ----- what is true of every touch and inverse row -----

  predicate HasTouched(xs: seq<Touch>, id: nat) { exists i | 0 <= i < |xs| :: xs[i].cause == Some(id) }

  predicate TouchOk(q: Queue, t: Touch) {
    t.cause.Some? ==>
      && t.cause.value < |q.rows| && q.rows[t.cause.value].spec.emailId == Some(t.email)
      && Effect(q.rows[t.cause.value].spec) == Some((t.what, t.on))
  }

  predicate HasHappened(start: Queue, xs: seq<Touch>, id: nat) { HasTouched(xs, id) || AppliedAtStart(start, id) }

  predicate RowSeen(start: Queue, q: Queue, xs: seq<Touch>, id: nat)
    requires id < |q.rows|
  {
    q.rows[id].status.Applied? && IsTagging(q.rows[id].spec) ==> HasHappened(start, xs, id)
  }

  predicate JobSeen(xs: seq<Touch>, x: Drainer) {
    x.Working? && (x.stage.Stamping? || x.stage.Marking?) && IsTagging(x.job.spec) ==> HasTouched(xs, x.job.id)
  }

  /** The inverse asks for the opposite of the same trait of the same email. */
  predicate Opposes(s: Spec, inverse: Spec) {
    && (IsTagging(inverse) <==> IsTagging(s))
    && (IsTagging(inverse) ==>
          && inverse.emailId == s.emailId
          && Effect(inverse).value == (Effect(s).value.0, !Effect(s).value.1))
  }

  predicate LinkSeen(start: Queue, q: Queue, xs: seq<Touch>, id: nat, inverse: Spec) {
    && id < |q.rows| && Opposes(q.rows[id].spec, inverse)
    && (IsTagging(inverse) ==> HasHappened(start, xs, id))
  }

  predicate CallSeen(start: Queue, q: Queue, xs: seq<Touch>, c: Call) {
    && (c.Reverting? ==>
          && c.id < |q.rows| && c.spec == q.rows[c.id].spec
          && (IsTagging(c.spec) ==> HasHappened(start, xs, c.id)))
    && (c.Resolved? || c.Claiming? || c.Inverting? ==> LinkSeen(start, q, xs, c.id, c.inverse))
  }

  /** The inverse row is a new one, and touches after the original. */
  predicate InverseSeen(start: Queue, q: Queue, xs: seq<Touch>, v: Inverse) {
    && |start.rows| <= v.row < |q.rows| && LinkSeen(start, q, xs, v.of, q.rows[v.row].spec)
    && forall j | 0 <= j < |xs| && xs[j].cause == Some(v.row) :: HasHappened(start, xs[..j], v.of)
  }

  ghost predicate Seen(start: Queue, q: Queue, xs: seq<Touch>) {
    && |start.rows| <= |q.rows|
    && (forall i | 0 <= i < |xs| :: TouchOk(q, xs[i]))
    && (forall id | 0 <= id < |q.rows| :: RowSeen(start, q, xs, id))
    && (forall d | 0 <= d < |q.drainers| :: JobSeen(xs, q.drainers[d]))
    && (forall p | p in q.calls :: CallSeen(start, q, xs, q.calls[p]))
    && (forall k | 0 <= k < |q.inverses| :: InverseSeen(start, q, xs, q.inverses[k]))
  }

  // ----- one step -----

  lemma TouchStays(xs: seq<Touch>, ys: seq<Touch>, id: nat)
    requires xs <= ys && HasTouched(xs, id)
    ensures HasTouched(ys, id)
  {
    var i :| 0 <= i < |xs| && xs[i].cause == Some(id);
    assert ys[i] == xs[i];
  }

  predicate Keeps(q: Queue, t: Queue) {
    |q.rows| <= |t.rows| && forall i | 0 <= i < |q.rows| :: t.rows[i].spec == q.rows[i].spec
  }

  lemma LinkStays(start: Queue, q: Queue, xs: seq<Touch>, t: Queue, ys: seq<Touch>, id: nat, inverse: Spec)
    requires LinkSeen(start, q, xs, id, inverse) && Keeps(q, t) && xs <= ys
    ensures LinkSeen(start, t, ys, id, inverse)
  {
    if HasTouched(xs, id) { TouchStays(xs, ys, id); }
  }

  /** What the reverter resolves is the opposite. */
  lemma InverseOpposes(s: Spec, id: nat, h: Option<History>, now: int)
    ensures var v := InverseOf(s, id, h, now); v.Some? ==> Opposes(s, v.value)
  {
  }

  lemma CallStays(start: Queue, q: Queue, grants: seq<Grant>, xs: seq<Touch>, c: Call, t: Queue, ys: seq<Touch>)
    requires CallSeen(start, q, xs, c) && Keeps(q, t) && xs <= ys
    ensures CallSeen(start, t, ys, c)
    ensures CallNext(q, grants, c).Some? ==> CallSeen(start, t, ys, CallNext(q, grants, c).value)
  {
    hide Opposes, Effect, HasTouched;
    if HasTouched(xs, c.id) { TouchStays(xs, ys, c.id); }
    if c.Reverting? {
      InverseOpposes(c.spec, c.id, HistoryOf(q.history, c.id), q.now);
      OppositesTag(c.spec, InverseOf(c.spec, c.id, HistoryOf(q.history, c.id), q.now));
    }
  }

  lemma OppositesTag(s: Spec, v: Option<Spec>)
    requires v.Some? ==> Opposes(s, v.value)
    ensures v.Some? && IsTagging(v.value) ==> IsTagging(s)
  {
  }

  lemma StepKeepsTouches(q: Queue, grants: seq<Grant>, e: Event, xs: seq<Touch>, ys: seq<Touch>)
    requires Enabled(q, e) && Known(q) && forall i | 0 <= i < |xs| :: TouchOk(q, xs[i])
    requires ys == if Lands(q, e) then xs + [TouchOf(q, e)] else xs
    ensures forall i | 0 <= i < |ys| :: TouchOk(Step(q, grants, e), ys[i])
    ensures Keeps(q, Step(q, grants, e))
  {
    SpecsFrame(q, grants, e);
    hide Step;
    if Lands(q, e) { assert Ready(q.rows, q.drainers[e.d]); }
  }

  lemma StepKeepsRowsSeen(start: Queue, q: Queue, grants: seq<Grant>, e: Event, xs: seq<Touch>, ys: seq<Touch>, id: nat)
    requires Enabled(q, e) && Known(q) && Seen(start, q, xs) && xs <= ys && id < |Step(q, grants, e).rows|
    requires Keeps(q, Step(q, grants, e))
    ensures RowSeen(start, Step(q, grants, e), ys, id)
  {
    var t := Step(q, grants, e);
    if t.rows[id].status.Applied? && IsTagging(t.rows[id].spec) {
      if e.Drain? {
        assert Ready(q.rows, q.drainers[e.d]) && JobSeen(xs, q.drainers[e.d]);
        OnlyMarkingApplies(q.rows, q.drainers[e.d], e.choice, id);
      } else {
        OthersNeverApply(q, grants, e);
      }
      hide Step;
      assert RowSeen(start, q, xs, id);
      if HasTouched(xs, id) { TouchStays(xs, ys, id); }
    }
  }

  /** A drainer whose row Graph has accepted has touched its email. */
  lemma JobStaysSeen(q: Queue, grants: seq<Grant>, d: nat, c: Choice, xs: seq<Touch>, ys: seq<Touch>, y: Drainer)
    requires d < |q.drainers| && JobSeen(xs, q.drainers[d]) && Follows(q, grants, q.drainers[d], c, y)
    requires ys == if Lands(q, Drain(d, c)) then xs + [TouchOf(q, Drain(d, c))] else xs
    ensures JobSeen(ys, y)
  {
    hide IsTagging, TouchOf, HasTouched, FindGrant, BudgetConsumed, Guarded, IsRevertRow;
    var x := q.drainers[d];
    if x.Working? && HasTouched(xs, x.job.id) { TouchStays(xs, ys, x.job.id); }
    if Lands(q, Drain(d, c)) { LandingTouches(q, Drain(d, c), xs); }
  }

  lemma LandingTouches(q: Queue, e: Event, xs: seq<Touch>)
    requires Lands(q, e)
    ensures HasTouched(xs + [TouchOf(q, e)], q.drainers[e.d].job.id)
  {
    assert (xs + [TouchOf(q, e)])[|xs|].cause == Some(q.drainers[e.d].job.id);
  }

  lemma StepKeepsJobsSeen(q: Queue, grants: seq<Grant>, e: Event, xs: seq<Touch>, ys: seq<Touch>, d: nat)
    requires Enabled(q, e) && d < |q.drainers| && JobSeen(xs, q.drainers[d])
    requires ys == if Lands(q, e) then xs + [TouchOf(q, e)] else xs
    ensures |Step(q, grants, e).drainers| == |q.drainers| && JobSeen(ys, Step(q, grants, e).drainers[d])
  {
    OthersKeepDrainers(q, grants, e);
    var x := q.drainers[d];
    if e.Drain? && d == e.d {
      var y := DrainNext(q, grants, x, e.choice);
      assert Step(q, grants, e).drainers[d] == y;
      DrainFollows(q, grants, x, e.choice);
      hide *;
      JobStaysSeen(q, grants, d, e.choice, xs, ys, y);
    } else {
      hide *;
      IdleStaysSeen(xs, ys, x);
    }
  }

  lemma IdleStaysSeen(xs: seq<Touch>, ys: seq<Touch>, x: Drainer)
    requires JobSeen(xs, x) && xs <= ys
    ensures JobSeen(ys, x)
  {
    if x.Working? && HasTouched(xs, x.job.id) { TouchStays(xs, ys, x.job.id); }
  }

  lemma StepKeepsCallsSeen(start: Queue, q: Queue, grants: seq<Grant>, e: Event, xs: seq<Touch>, ys: seq<Touch>, p: nat)
    requires Enabled(q, e) && Seen(start, q, xs) && xs <= ys && Keeps(q, Step(q, grants, e))
    requires p in Step(q, grants, e).calls
    ensures CallSeen(start, Step(q, grants, e), ys, Step(q, grants, e).calls[p])
  {
    CallsFrame(q, grants, e, p);
    hide Step;
    if e.Revert? && p == e.p {
      assert RowSeen(start, q, xs, e.id);
      if HasTouched(xs, e.id) { TouchStays(xs, ys, e.id); }
    } else if p in q.calls {
      CallStays(start, q, grants, xs, q.calls[p], Step(q, grants, e), ys);
    }
  }

  lemma CallsFrame(q: Queue, grants: seq<Grant>, e: Event, p: nat)
    requires Enabled(q, e) && p in Step(q, grants, e).calls
    ensures var c := Step(q, grants, e).calls[p];
            if e.Revert? && p == e.p then c == Reverting(e.id, q.rows[e.id].spec)
            else if e.Replay? && p == e.p then c.Replaying?
            else p in q.calls && (c == q.calls[p] || CallNext(q, grants, q.calls[p]) == Some(c))
  {
    hide CallNext;
  }

  lemma NewInverse(q: Queue, grants: seq<Grant>, e: Event)
    requires Enabled(q, e)
    ensures var t := Step(q, grants, e);
            if e.Continue? && q.calls[e.p].Inverting? then
              && t.inverses == q.inverses + [Inverse(q.calls[e.p].id, |q.rows|)] && |t.rows| == |q.rows| + 1
              && t.rows[|q.rows|].spec == q.calls[e.p].inverse
            else t.inverses == q.inverses
  {
    hide CallNext;
  }

  lemma InverseStays(start: Queue, q: Queue, xs: seq<Touch>, t: Queue, ys: seq<Touch>, v: Inverse)
    requires InverseSeen(start, q, xs, v) && Keeps(q, t)
    requires ys == xs || (|ys| == |xs| + 1 && ys[..|xs|] == xs && TouchOk(q, ys[|xs|]))
    ensures InverseSeen(start, t, ys, v)
  {
    hide Opposes, HasTouched, AppliedAtStart;
    LinkStays(start, q, xs, t, ys, v.of, q.rows[v.row].spec);
    forall j | 0 <= j < |ys| && ys[j].cause == Some(v.row) ensures HasHappened(start, ys[..j], v.of) {
      if j < |xs| { assert xs[..j] == ys[..j]; }
    }
  }

  lemma StepKeepsInversesSeen(start: Queue, q: Queue, grants: seq<Grant>, e: Event, xs: seq<Touch>, ys: seq<Touch>,
      k: nat)
    requires Enabled(q, e) && Known(q) && Seen(start, q, xs) && Keeps(q, Step(q, grants, e))
    requires ys == if Lands(q, e) then xs + [TouchOf(q, e)] else xs
    requires k < |Step(q, grants, e).inverses|
    ensures InverseSeen(start, Step(q, grants, e), ys, Step(q, grants, e).inverses[k])
  {
    NewInverse(q, grants, e);
    hide Step;
    var t := Step(q, grants, e);
    if k < |q.inverses| {
      if Lands(q, e) { assert Ready(q.rows, q.drainers[e.d]); }
      InverseStays(start, q, xs, t, ys, q.inverses[k]);
    } else {
      var c := q.calls[e.p];
      assert CallSeen(start, q, xs, c);
      LinkStays(start, q, xs, t, ys, c.id, c.inverse);
      forall j | 0 <= j < |ys| ensures ys[j].cause != Some(|q.rows|) { assert TouchOk(q, ys[j]); }
    }
  }

  // ----- whole runs -----

  lemma TickKeepsSeen(start: Queue, q: Queue, grants: seq<Grant>, e: Event, xs: seq<Touch>, ys: seq<Touch>)
    requires Enabled(q, e) && Known(q) && Seen(start, q, xs)
    requires ys == if Lands(q, e) then xs + [TouchOf(q, e)] else xs
    ensures Seen(start, Step(q, grants, e), ys)
  {
    var t := Step(q, grants, e);
    StepKeepsTouches(q, grants, e, xs, ys);
    OthersKeepDrainers(q, grants, e);
    assert Keeps(q, t) && xs <= ys;
    hide Step, Lands, TouchOf, TouchOk, RowSeen, JobSeen, CallSeen, InverseSeen, Keeps;
    forall id | 0 <= id < |t.rows| ensures RowSeen(start, t, ys, id) {
      StepKeepsRowsSeen(start, q, grants, e, xs, ys, id);
    }
    forall d | 0 <= d < |t.drainers| ensures JobSeen(ys, t.drainers[d]) {
      StepKeepsJobsSeen(q, grants, e, xs, ys, d);
    }
    forall p | p in t.calls ensures CallSeen(start, t, ys, t.calls[p]) {
      StepKeepsCallsSeen(start, q, grants, e, xs, ys, p);
    }
    forall k | 0 <= k < |t.inverses| ensures InverseSeen(start, t, ys, t.inverses[k]) {
      StepKeepsInversesSeen(start, q, grants, e, xs, ys, k);
    }
    Grows(start, q, t);
  }

  lemma Grows(start: Queue, q: Queue, t: Queue)
    requires |start.rows| <= |q.rows| && Keeps(q, t)
    ensures |start.rows| <= |t.rows|
  {
  }

  /** What somebody else does is no row's doing. */
  lemma ForeignKeepsSeen(start: Queue, q: Queue, xs: seq<Touch>, t: Touch)
    requires Seen(start, q, xs) && t.cause.None?
    ensures Seen(start, q, xs + [t])
  {
    var ys := xs + [t];
    hide LinkSeen, Opposes, IsTagging, Effect;
    forall id: nat | HasTouched(xs, id) ensures HasTouched(ys, id) { TouchStays(xs, ys, id); }
    forall id | 0 <= id < |q.rows| ensures RowSeen(start, q, ys, id) { assert RowSeen(start, q, xs, id); }
    forall p | p in q.calls ensures CallSeen(start, q, ys, q.calls[p]) {
      assert CallSeen(start, q, xs, q.calls[p]);
      LinkStaysHere(start, q, xs, ys);
    }
    forall k | 0 <= k < |q.inverses| ensures InverseSeen(start, q, ys, q.inverses[k]) {
      var v := q.inverses[k];
      assert InverseSeen(start, q, xs, v);
      LinkStaysHere(start, q, xs, ys);
      forall j | 0 <= j < |ys| && ys[j].cause == Some(v.row) ensures HasHappened(start, ys[..j], v.of) {
        assert xs[..j] == ys[..j];
      }
    }
  }

  lemma LinkStaysHere(start: Queue, q: Queue, xs: seq<Touch>, ys: seq<Touch>)
    requires xs <= ys
    ensures forall id: nat, s | LinkSeen(start, q, xs, id, s) :: LinkSeen(start, q, ys, id, s)
  {
    forall id: nat, s | LinkSeen(start, q, xs, id, s) ensures LinkSeen(start, q, ys, id, s) {
      LinkStays(start, q, xs, q, ys, id, s);
    }
  }

  ghost predicate Sound(start: Mail, m: Mail) {
    Known(m.queue) && Seen(start.queue, m.queue, m.touches) && AreLatest(start.traits, m)
  }

  lemma DoKeepsSound(start: Mail, m: Mail, d: Doing)
    requires Can(m, d) && Sound(start, m)
    ensures Sound(start, Do(m, d))
  {
    DoKeepsLatest(start.traits, m, d);
    hide Step, Lands, Seen, Known, AreLatest;
    match d
    case Works(t) =>
      StepKeepsKnown(m.queue, t.grants, t.event);
      TickKeepsSeen(start.queue, m.queue, t.grants, t.event, m.touches, Do(m, d).touches);
    case Touches(email, what, on) =>
      ForeignKeepsSeen(start.queue, m.queue, m.touches, Touch(email, what, on, None));
  }

  lemma {:induction false} HappeningKeepsSound(start: Mail, m: Mail, ds: seq<Doing>)
    requires Happen(m, ds) && Sound(start, m)
    ensures Sound(start, Afterwards(m, ds))
    decreases |ds|
  {
    hide Sound, Can, Do;
    if ds != [] {
      DoKeepsSound(start, m, ds[0]);
      HappeningKeepsSound(start, Do(m, ds[0]), ds[1..]);
    }
  }

  // ----- the round trip -----

  /** The trait before touch number `i` and after it. */
  function Before(start: Mail, t: Mail, i: nat): bool
    requires i < |t.touches|
  {
    Latest(start.traits, t.touches[..i], t.touches[i].email, t.touches[i].what)
  }

  function Behind(start: Mail, t: Mail, i: nat): bool
    requires i < |t.touches|
  {
    Latest(start.traits, t.touches[..i + 1], t.touches[i].email, t.touches[i].what)
  }

  predicate IsLast(t: Mail, j: nat)
    requires j < |t.touches|
  {
    forall k | j < k < |t.touches| :: t.touches[k].email != t.touches[j].email || t.touches[k].what != t.touches[j].what
  }

  /** Touch `i` is the original's and touch `j`, later, the inverse row's, of the same trait: the trait is
      then as it was before the original, exactly if the original changed it; and it is so still, unless
      somebody has touched it since. */
  ghost predicate IsRestored(start: Mail, t: Mail, v: Inverse, i: nat, j: nat) {
    && i < j < |t.touches| && t.touches[i].cause == Some(v.of) && t.touches[j].cause == Some(v.row)
    && t.touches[i].email == t.touches[j].email && t.touches[i].what == t.touches[j].what
    && Behind(start, t, j) == !Behind(start, t, i)
    && (Behind(start, t, j) == Before(start, t, i) <==> Behind(start, t, i) != Before(start, t, i))
    && (IsLast(t, j) ==> ((t.touches[j].email, t.touches[j].what) in t.traits <==> Behind(start, t, j)))
  }

  lemma BehindIs(start: Mail, t: Mail, i: nat)
    requires i < |t.touches|
    ensures Behind(start, t, i) == t.touches[i].on
  {
    assert t.touches[..i + 1] == t.touches[..i] + [t.touches[i]];
    LatestAppend(start.traits, t.touches[..i], t.touches[i], t.touches[i].email, t.touches[i].what);
  }

  lemma LastIsNow(start: Mail, t: Mail, j: nat)
    requires AreLatest(start.traits, t) && j < |t.touches| && IsLast(t, j)
    ensures (t.touches[j].email, t.touches[j].what) in t.traits <==> Behind(start, t, j)
  {
    hide Latest;
    Untouched(start.traits, t.touches, j + 1, t.touches[j].email, t.touches[j].what);
  }

  lemma TouchesOppose(start: Mail, t: Mail, v: Inverse, i: nat, j: nat)
    requires Sound(start, t) && v in t.queue.inverses && i < j < |t.touches|
    requires t.touches[i].cause == Some(v.of) && t.touches[j].cause == Some(v.row)
    ensures IsRestored(start, t, v, i, j)
  {
    hide Latest, AreLatest;
    var k :| 0 <= k < |t.queue.inverses| && t.queue.inverses[k] == v;
    assert InverseSeen(start.queue, t.queue, t.touches, t.queue.inverses[k]);
    assert TouchOk(t.queue, t.touches[i]) && TouchOk(t.queue, t.touches[j]);
    BehindIs(start, t, i);
    BehindIs(start, t, j);
    if IsLast(t, j) { LastIsNow(start, t, j); }
  }

  /** Once the inverse of a flag or category action is `applied`, the trait has been set to the opposite of
      what the original asked for, after the original; so it is back exactly if the original changed it. */
  lemma RevertRestoresTheTrait(start: Mail, ds: seq<Doing>, v: Inverse)
    requires Happen(start, ds) && Fresh(start.queue) && start.touches == []
    requires var t := Afterwards(start, ds);
             && v in t.queue.inverses && v.row < |t.queue.rows| && t.queue.rows[v.row].status.Applied?
             && IsTagging(t.queue.rows[v.row].spec)
    ensures var t := Afterwards(start, ds);
            AppliedAtStart(start.queue, v.of) || exists i: nat, j: nat :: IsRestored(start, t, v, i, j)
  {
    var t := Afterwards(start, ds);
    assert Sound(start, start);
    hide Can, Do, Latest, AreLatest;
    HappeningKeepsSound(start, start, ds);
    var k :| 0 <= k < |t.queue.inverses| && t.queue.inverses[k] == v;
    assert InverseSeen(start.queue, t.queue, t.touches, t.queue.inverses[k]) &&
           RowSeen(start.queue, t.queue, t.touches, v.row);
    if !AppliedAtStart(start.queue, v.of) {
      var j: nat :| j < |t.touches| && t.touches[j].cause == Some(v.row);
      assert HasHappened(start.queue, t.touches[..j], v.of);
      var i: nat :| i < j && t.touches[..j][i].cause == Some(v.of);
      assert t.touches[i].cause == Some(v.of);
      TouchesOppose(start, t, v, i, j);
    }
  }
}
