/** A Tier-1 move and its revert: where the message ends up. */
module RoundTrip {
  import opened Actions
  import opened Tables
  import opened Queue
  import opened Ownership
  import opened Dispatches
  import opened Reverts

  function Where(mailbox: map<string, string>, m: string): Option<string> {
    if m in mailbox then Some(mailbox[m]) else None
  }

  /** The folder of `m` after the moves, from where it was at the start. */
  function Located(start: map<string, string>, moves: seq<Move>, m: string): Option<string> {
    if moves == [] then Where(start, m)
    else if moves[|moves| - 1].email == m then moves[|moves| - 1].to
    else Located(start, moves[..|moves| - 1], m)
  }

  lemma LocatedAppend(start: map<string, string>, moves: seq<Move>, v: Move, m: string)
    ensures Located(start, moves + [v], m) == if v.email == m then v.to else Located(start, moves, m)
  {
    assert (moves + [v])[..|moves|] == moves;
  }

  lemma {:induction false} Undisturbed(start: map<string, string>, moves: seq<Move>, from: nat, to: nat, m: string)
    requires from <= to <= |moves|
    requires forall k | from <= k < to :: moves[k].email != m
    ensures Located(start, moves[..to], m) == Located(start, moves[..from], m)
  {
    if from < to {
      assert moves[..to] == moves[..to - 1] + [moves[to - 1]];
      LocatedAppend(start, moves[..to - 1], moves[to - 1], m);
      Undisturbed(start, moves, from, to - 1, m);
    }
  }

  // ----- what is true of every capture, move and inverse row -----

  predicate Names(s: Spec, m: string) { s.emailId == Some(m) }

  /** The pre-state of the row is the folder its message was in when `seen` moves had happened. */
  predicate PreState(start: Queue, moves: seq<Move>, s: Spec, folder: string, seen: nat) {
    && folder != "" && s.emailId.Some? && seen <= |moves|
    && Located(start.mailbox, moves[..seen], s.emailId.value) == Some(folder)
  }

  predicate CaptureOk(start: Queue, q: Queue, id: nat) {
    id in q.captures ==>
      && id < |q.rows| && id in q.history && q.history[id].pre == Some(q.captures[id].folder)
      && PreState(start, q.moves, q.rows[id].spec, q.captures[id].folder, q.captures[id].seen)
  }

  /** A move made by a row took the row's message to its destination, after its capture. */
  predicate MoveOk(start: Queue, q: Queue, i: nat)
    requires i < |q.moves|
  {
    q.moves[i].cause.Some? ==>
      var id, v := q.moves[i].cause.value, q.moves[i];
      && id < |q.rows| && id in q.captures && q.captures[id].seen <= i
      && Names(q.rows[id].spec, v.email)
      && v.to == Destination(q.rows[id].spec) && v.to.Some?
  }

  predicate MovedBy(moves: seq<Move>, id: nat) {
    exists i | 0 <= i < |moves| :: moves[i].cause == Some(id)
  }

  predicate AppliedAtStart(start: Queue, id: nat) { IsApplied(start.rows, id) }

  /** The row was applied before the run, or its move is on record. */
  predicate HasMoved(start: Queue, q: Queue, id: nat) { MovedBy(q.moves, id) || AppliedAtStart(start, id) }

  predicate RowOk(start: Queue, q: Queue, id: nat)
    requires id < |q.rows|
  {
    q.rows[id].status.Applied? && IsMoveFamily(q.rows[id].spec.action) ==> HasMoved(start, q, id)
  }

  predicate LinkOk(start: Queue, q: Queue, id: nat, inverse: Spec) {
    && id < |q.rows|
    && (IsMoveFamily(inverse.action) ==>
          && id in q.history && q.history[id].pre.Some? && Destination(inverse) == q.history[id].pre
          && inverse.emailId == q.rows[id].spec.emailId && HasMoved(start, q, id))
  }

  predicate CallOk(start: Queue, q: Queue, c: Call) {
    && (c.Reverting? ==>
          && c.id < |q.rows| && c.spec == q.rows[c.id].spec
          && (IsMoveFamily(c.spec.action) ==> HasMoved(start, q, c.id)))
    && (c.Resolved? || c.Claiming? || c.Inverting? ==> LinkOk(start, q, c.id, c.inverse))
  }

  predicate InverseOk(start: Queue, q: Queue, v: Inverse) {
    |start.rows| <= v.row < |q.rows| && LinkOk(start, q, v.of, q.rows[v.row].spec)
  }

  predicate JobOk(start: Queue, q: Queue, x: Drainer) {
    x.Working? ==>
      && (x.job.pre.Some? && x.stage.Recording? ==> PreState(start, q.moves, x.job.spec, x.job.pre.value, x.job.seen))
      && (x.job.pre.Some? ==>
            && !x.stage.Claimed? && !x.stage.Checking? && !x.stage.Scanning? && !x.stage.Vetting?
            && !x.stage.Capping? && !x.stage.Counting?)
      && (x.stage.Capping? || x.stage.Counting? ==> IsSendFamily(x.job.spec.action))
      && (IsMoveFamily(x.job.spec.action) && x.stage.Recording? ==> x.job.pre.Some?)
      && (IsMoveFamily(x.job.spec.action) && x.stage.Dispatching? ==> x.job.id in q.captures)
      && (IsMoveFamily(x.job.spec.action) && (x.stage.Stamping? || x.stage.Marking?) ==> MovedBy(q.moves, x.job.id))
  }

  predicate SentOk(q: Queue, s: Dispatch) {
    && s.id < |q.rows| && s.spec == q.rows[s.id].spec
    && (IsMoveFamily(s.spec.action) ==> s.id in q.captures)
  }

  ghost predicate Tracked(start: Queue, q: Queue) {
    && |start.rows| <= |q.rows|
    && (forall m :: Where(q.mailbox, m) == Located(start.mailbox, q.moves, m))
    && (forall id | 0 <= id < |q.rows| :: RowOk(start, q, id))
    && (forall id | id in q.captures :: CaptureOk(start, q, id))
    && (forall i | 0 <= i < |q.moves| :: MoveOk(start, q, i))
    && (forall k | 0 <= k < |q.inverses| :: InverseOk(start, q, q.inverses[k]))
    && (forall p | p in q.calls :: CallOk(start, q, q.calls[p]))
    && (forall d | 0 <= d < |q.drainers| :: JobOk(start, q, q.drainers[d]))
    && (forall k | 0 <= k < |q.dispatches| :: SentOk(q, q.dispatches[k]))
  }

  /** What no step takes back. */
  ghost predicate Extends(q: Queue, t: Queue) {
    && |q.rows| <= |t.rows| && (forall i | 0 <= i < |q.rows| :: t.rows[i].spec == q.rows[i].spec)
    && (forall id | id in q.history :: id in t.history && t.history[id].pre == q.history[id].pre)
    && (forall id | id in q.captures :: id in t.captures && t.captures[id] == q.captures[id])
    && q.moves <= t.moves
    && (forall id: nat | MovedBy(q.moves, id) :: MovedBy(t.moves, id))
  }

  lemma StepExtends(q: Queue, grants: seq<Grant>, e: Event)
    requires Enabled(q, e) && Known(q) && forall id | id in q.captures :: id in q.history
    ensures Extends(q, Step(q, grants, e))
  {
    SpecsFrame(q, grants, e);
    CapturesStay(q, grants, e);
    MovesGrow(q, grants, e);
    hide Step;
    var t := Step(q, grants, e);
    forall id: nat | MovedBy(q.moves, id) ensures MovedBy(t.moves, id) { MoveStays(q.moves, t.moves, id); }
  }

  lemma CapturesStay(q: Queue, grants: seq<Grant>, e: Event)
    requires Enabled(q, e) && forall id | id in q.captures :: id in q.history
    ensures var t := Step(q, grants, e);
            && (forall id | id in q.history :: id in t.history && t.history[id].pre == q.history[id].pre)
            && (forall id | id in q.captures :: id in t.captures && t.captures[id] == q.captures[id])
  {
    hide CanTake, CallNext, DrainNext, RowsAfter, RowsAfterCall, RowsAfterEvent, Lapses, Clears, Sends, Moves;
  }

  lemma MovesGrow(q: Queue, grants: seq<Grant>, e: Event)
    requires Enabled(q, e)
    ensures q.moves <= Step(q, grants, e).moves
  {
  }

  lemma MoveStays(moves: seq<Move>, moves': seq<Move>, id: nat)
    requires moves <= moves' && MovedBy(moves, id)
    ensures MovedBy(moves', id)
  {
    var i :| 0 <= i < |moves| && moves[i].cause == Some(id);
    assert moves'[i] == moves[i];
  }

  lemma PreStateKept(start: Queue, q: Queue, t: Queue, s: Spec, folder: string, seen: nat)
    requires q.moves <= t.moves && PreState(start, q.moves, s, folder, seen)
    ensures PreState(start, t.moves, s, folder, seen)
  {
    assert t.moves[..seen] == q.moves[..seen];
  }

  // ----- one step -----

  /** Only a user or a drainer's move moves a message. */
  lemma MailFrame(q: Queue, grants: seq<Grant>, e: Event)
    requires Enabled(q, e)
    ensures var t := Step(q, grants, e);
            if e.UserMoves? then
              && t.moves == q.moves + [UserMove(q.mailbox, e.email, e.to)]
              && forall m :: Where(t.mailbox, m) == if m == e.email then e.to else Where(q.mailbox, m)
            else if e.Drain? && Moves(q, q.drainers[e.d], e.choice) then
              var v := MoveOf(q, q.drainers[e.d]);
              && t.moves == q.moves + [v]
              && forall m :: Where(t.mailbox, m) == if m == v.email then v.to else Where(q.mailbox, m)
            else t.moves == q.moves && t.mailbox == q.mailbox
  {
  }

  lemma StepKeepsMail(start: Queue, q: Queue, grants: seq<Grant>, e: Event, m: string)
    requires Enabled(q, e) && Where(q.mailbox, m) == Located(start.mailbox, q.moves, m)
    ensures Where(Step(q, grants, e).mailbox, m) == Located(start.mailbox, Step(q, grants, e).moves, m)
  {
    MailFrame(q, grants, e);
    hide Step;
    if e.UserMoves? {
      LocatedAppend(start.mailbox, q.moves, UserMove(q.mailbox, e.email, e.to), m);
    } else if e.Drain? && Moves(q, q.drainers[e.d], e.choice) {
      LocatedAppend(start.mailbox, q.moves, MoveOf(q, q.drainers[e.d]), m);
    }
  }

  lemma JobKept(start: Queue, q: Queue, grants: seq<Grant>, x: Drainer, c: Choice, y: Drainer, t: Queue)
    requires JobOk(start, q, x) && Follows(q, grants, x, c, y) && Extends(q, t)
    requires forall m :: Where(q.mailbox, m) == Located(start.mailbox, q.moves, m)
    requires Records(q, x, c) && x.job.pre.Some? ==> x.job.id in t.captures
    requires Completes(x, c, Dispatching) && IsMoveFamily(x.job.spec.action) ==> MovedBy(t.moves, x.job.id)
    ensures JobOk(start, t, y)
  {
    if x.Working? && y.Working? && x.job.pre.Some? && x.stage.Recording? {
      PreStateKept(start, q, t, x.job.spec, x.job.pre.value, x.job.seen);
    }
    if y.Working? && y.stage.Recording? && x.stage.Capturing? {
      assert q.moves[..|q.moves|] == q.moves;
      assert Where(q.mailbox, x.job.spec.emailId.value) == y.job.pre;
      PreStateKept(start, q, t, y.job.spec, y.job.pre.value, y.job.seen);
    }
  }

  /** Graph accepts no move that it does not carry out. */
  lemma AcceptedMoves(q: Queue, grants: seq<Grant>, d: nat, c: Choice)
    requires CanDrain(q, d, c)
    ensures var x, t := q.drainers[d], DrainStep(q, grants, d, c);
            Completes(x, c, Dispatching) && IsMoveFamily(x.job.spec.action) ==> MovedBy(t.moves, x.job.id)
  {
    var x, t := q.drainers[d], DrainStep(q, grants, d, c);
    if Completes(x, c, Dispatching) && IsMoveFamily(x.job.spec.action) {
      assert t.moves == q.moves + [MoveOf(q, x)] && t.moves[|q.moves|].cause == Some(x.job.id);
    }
  }

  lemma JobIdle(start: Queue, q: Queue, x: Drainer, t: Queue)
    requires JobOk(start, q, x) && Extends(q, t)
    ensures JobOk(start, t, x)
  {
    if x.Working? && x.job.pre.Some? && x.stage.Recording? {
      PreStateKept(start, q, t, x.job.spec, x.job.pre.value, x.job.seen);
    }
  }

  lemma StepKeepsJobs(start: Queue, q: Queue, grants: seq<Grant>, e: Event)
    requires Enabled(q, e) && Known(q) && Tracked(start, q)
    ensures forall d | 0 <= d < |Step(q, grants, e).drainers| ::
              JobOk(start, Step(q, grants, e), Step(q, grants, e).drainers[d])
  {
    var t := Step(q, grants, e);
    Extended(start, q, grants, e);
    OthersKeepDrainers(q, grants, e);
    forall d | 0 <= d < |t.drainers| ensures JobOk(start, t, t.drainers[d]) {
      assert JobOk(start, q, q.drainers[d]);
      if e.Drain? && d == e.d {
        DrainFollows(q, grants, q.drainers[d], e.choice);
        AcceptedMoves(q, grants, d, e.choice);
        JobKept(start, q, grants, q.drainers[d], e.choice, t.drainers[d], t);
      } else {
        JobIdle(start, q, q.drainers[d], t);
      }
    }
  }

  lemma OthersKeepDrainers(q: Queue, grants: seq<Grant>, e: Event)
    requires Enabled(q, e)
    ensures var t := Step(q, grants, e);
            && |t.drainers| == |q.drainers|
            && forall d | 0 <= d < |q.drainers| && !(e.Drain? && d == e.d) :: t.drainers[d] == q.drainers[d]
  {
  }

  lemma Extended(start: Queue, q: Queue, grants: seq<Grant>, e: Event)
    requires Enabled(q, e) && Known(q) && Tracked(start, q)
    ensures Extends(q, Step(q, grants, e))
  {
    forall id | id in q.captures ensures id in q.history { assert CaptureOk(start, q, id); }
    StepExtends(q, grants, e);
  }

  lemma StepKeepsCaptures(start: Queue, q: Queue, grants: seq<Grant>, e: Event, id: nat)
    requires Enabled(q, e) && Known(q) && Tracked(start, q)
    ensures CaptureOk(start, Step(q, grants, e), id)
  {
    var t := Step(q, grants, e);
    Extended(start, q, grants, e);
    if id in q.captures {
      assert CaptureOk(start, q, id);
      PreStateKept(start, q, t, q.rows[id].spec, q.captures[id].folder, q.captures[id].seen);
    } else if id in t.captures {
      var x := q.drainers[e.d];
      assert Ready(q.rows, x) && JobOk(start, q, x);
      PreStateKept(start, q, t, x.job.spec, x.job.pre.value, x.job.seen);
    }
  }

  lemma StepKeepsMoves(start: Queue, q: Queue, grants: seq<Grant>, e: Event, i: nat)
    requires Enabled(q, e) && Known(q) && Tracked(start, q) && i < |Step(q, grants, e).moves|
    ensures MoveOk(start, Step(q, grants, e), i)
  {
    var t := Step(q, grants, e);
    Extended(start, q, grants, e);
    MailFrame(q, grants, e);
    hide Step, CanTake, Located, PreState;
    if i < |q.moves| {
      assert MoveOk(start, q, i) && t.moves[i] == q.moves[i];
    } else if e.Drain? {
      var x := q.drainers[e.d];
      assert Ready(q.rows, x) && JobOk(start, q, x) && CaptureOk(start, q, x.job.id);
    }
  }

  lemma StepKeepsRows(start: Queue, q: Queue, grants: seq<Grant>, e: Event, id: nat)
    requires Enabled(q, e) && Known(q) && Tracked(start, q) && id < |Step(q, grants, e).rows|
    ensures RowOk(start, Step(q, grants, e), id)
  {
    var t := Step(q, grants, e);
    Extended(start, q, grants, e);
    if id < |q.rows| { assert RowOk(start, q, id); }
    if e.Drain? {
      assert Ready(q.rows, q.drainers[e.d]) && JobOk(start, q, q.drainers[e.d]);
      if t.rows[id].status.Applied? { OnlyMarkingApplies(q.rows, q.drainers[e.d], e.choice, id); }
    } else {
      OthersNeverApply(q, grants, e);
    }
  }

  lemma OnlyMarkingApplies(rows: seq<Row>, x: Drainer, c: Choice, id: nat)
    requires id < |RowsAfter(rows, x, c)| && RowsAfter(rows, x, c)[id].status.Applied?
    ensures id < |rows| && (rows[id].status.Applied? || (Completes(x, c, Marking) && x.job.id == id))
  {
  }

  lemma LinkKept(start: Queue, q: Queue, t: Queue, id: nat, inverse: Spec)
    requires LinkOk(start, q, id, inverse) && Extends(q, t)
    ensures LinkOk(start, t, id, inverse)
  {
  }

  lemma InverseLinks(start: Queue, q: Queue, id: nat, s: Spec)
    requires id < |q.rows| && s == q.rows[id].spec && (IsMoveFamily(s.action) ==> HasMoved(start, q, id))
    ensures var v := InverseOf(s, id, HistoryOf(q.history, id), q.now); v.Some? ==> LinkOk(start, q, id, v.value)
  {
  }

  lemma CallKept(start: Queue, q: Queue, grants: seq<Grant>, c: Call, t: Queue)
    requires CallOk(start, q, c) && Extends(q, t)
    ensures CallOk(start, t, c)
    ensures CallNext(q, grants, c).Some? ==> CallOk(start, t, CallNext(q, grants, c).value)
  {
    if c.Reverting? {
      InverseLinks(start, q, c.id, c.spec);
      var v := InverseOf(c.spec, c.id, HistoryOf(q.history, c.id), q.now);
      if v.Some? { LinkKept(start, q, t, c.id, v.value); }
    } else if c.Resolved? || c.Claiming? || c.Inverting? {
      LinkKept(start, q, t, c.id, c.inverse);
    }
  }

  lemma StepKeepsCalls(start: Queue, q: Queue, grants: seq<Grant>, e: Event, p: nat)
    requires Enabled(q, e) && Known(q) && Tracked(start, q) && p in Step(q, grants, e).calls
    ensures CallOk(start, Step(q, grants, e), Step(q, grants, e).calls[p])
  {
    Extended(start, q, grants, e);
    if e.Revert? && p == e.p {
      assert RowOk(start, q, e.id);
    } else if p in q.calls {
      CallKept(start, q, grants, q.calls[p], Step(q, grants, e));
    }
  }

  lemma StepKeepsInverses(start: Queue, q: Queue, grants: seq<Grant>, e: Event, k: nat)
    requires Enabled(q, e) && Known(q) && Tracked(start, q) && k < |Step(q, grants, e).inverses|
    ensures InverseOk(start, Step(q, grants, e), Step(q, grants, e).inverses[k])
  {
    var t := Step(q, grants, e);
    Extended(start, q, grants, e);
    InversesGrow(q, grants, e);
    if k < |q.inverses| {
      assert InverseOk(start, q, q.inverses[k]);
      LinkKept(start, q, t, q.inverses[k].of, q.rows[q.inverses[k].row].spec);
    } else {
      var c := q.calls[e.p];
      assert CallOk(start, q, c);
      LinkKept(start, q, t, c.id, c.inverse);
    }
  }

  lemma StepKeepsSent(start: Queue, q: Queue, grants: seq<Grant>, e: Event, k: nat)
    requires Enabled(q, e) && Known(q) && Tracked(start, q) && k < |Step(q, grants, e).dispatches|
    ensures SentOk(Step(q, grants, e), Step(q, grants, e).dispatches[k])
  {
    Extended(start, q, grants, e);
    if k < |q.dispatches| {
      assert SentOk(q, q.dispatches[k]);
      if !e.Drain? { OthersNeverApply(q, grants, e); }
    } else if e.Drain? {
      assert Ready(q.rows, q.drainers[e.d]) && JobOk(start, q, q.drainers[e.d]);
    } else {
      OthersNeverApply(q, grants, e);
    }
  }

  lemma StepKeepsTracked(start: Queue, q: Queue, grants: seq<Grant>, e: Event)
    requires Enabled(q, e) && Known(q) && Tracked(start, q)
    ensures Tracked(start, Step(q, grants, e))
  {
    var t := Step(q, grants, e);
    Extended(start, q, grants, e);
    forall id | 0 <= id < |t.rows| ensures RowOk(start, t, id) { StepKeepsRows(start, q, grants, e, id); }
    forall m ensures Where(t.mailbox, m) == Located(start.mailbox, t.moves, m) {
      StepKeepsMail(start, q, grants, e, m);
    }
    forall id | id in t.captures ensures CaptureOk(start, t, id) { StepKeepsCaptures(start, q, grants, e, id); }
    forall i | 0 <= i < |t.moves| ensures MoveOk(start, t, i) { StepKeepsMoves(start, q, grants, e, i); }
    forall k | 0 <= k < |t.inverses| ensures InverseOk(start, t, t.inverses[k]) {
      StepKeepsInverses(start, q, grants, e, k);
    }
    forall p | p in t.calls ensures CallOk(start, t, t.calls[p]) { StepKeepsCalls(start, q, grants, e, p); }
    forall k | 0 <= k < |t.dispatches| ensures SentOk(t, t.dispatches[k]) { StepKeepsSent(start, q, grants, e, k); }
    StepKeepsJobs(start, q, grants, e);
  }

  lemma {:induction false} RunKeepsTracked(start: Queue, q: Queue, ts: seq<Tick>)
    requires Runs(q, ts) && Known(q) && Tracked(start, q)
    ensures Tracked(start, After(q, ts))
    decreases |ts|
  {
    if ts != [] {
      StepKeepsKnown(q, ts[0].grants, ts[0].event);
      StepKeepsTracked(start, q, ts[0].grants, ts[0].event);
      RunKeepsTracked(start, Step(q, ts[0].grants, ts[0].event), ts[1..]);
    }
  }

  // ----- the round trip -----

  /** Nothing has happened yet; the tables may hold any rows and histories from before. */
  predicate Fresh(q: Queue) {
    && q.calls == map[] && q.captures == map[] && q.moves == [] && q.marks == [] && q.inverses == []
    && q.applied == [] && q.restamps == []
    && q.dispatches == [] && forall d | 0 <= d < |q.drainers| :: q.drainers[d].Idle?
  }

  lemma FreshIsTracked(q: Queue)
    requires Fresh(q)
    ensures Known(q) && Tracked(q, q)
  {
  }

  /** `j` is where the inverse's move happened. */
  ghost predicate IsReturn(t: Queue, v: Inverse, j: nat) {
    && v in t.inverses && j < |t.moves| && t.moves[j].cause == Some(v.row)
    && v.row < |t.rows| && IsMoveFamily(t.rows[v.row].spec.action)
  }

  /** After that the message was in the folder the original's history names. */
  ghost predicate IsBack(start: Queue, t: Queue, v: Inverse, j: nat) {
    && IsReturn(t, v, j) && v.of in t.history && t.history[v.of].pre.Some? && v.of < |t.rows|
    && t.moves[j].to == t.history[v.of].pre && Names(t.rows[v.of].spec, t.moves[j].email)
    && Located(start.mailbox, t.moves[..j + 1], t.moves[j].email) == t.history[v.of].pre
  }

  /** `i` is where the original's own move happened: the folder is the one captured for it, and,
      unless somebody moved the message between the capture and that move, the one it came from. */
  ghost predicate IsRestored(start: Queue, t: Queue, v: Inverse, i: nat, j: nat) {
    && IsBack(start, t, v, j) && i < |t.moves| && t.moves[i].cause == Some(v.of)
    && var m := t.moves[i].email;
       && m == t.moves[j].email
       && v.of in t.captures && t.captures[v.of].seen <= i && t.history[v.of].pre == Some(t.captures[v.of].folder)
       && ((forall k | t.captures[v.of].seen <= k < i :: t.moves[k].email != m) ==>
             Located(start.mailbox, t.moves[..j + 1], m) == Located(start.mailbox, t.moves[..i], m))
  }

  lemma TrackedReturns(start: Queue, t: Queue, v: Inverse, j: nat)
    requires Tracked(start, t) && IsReturn(t, v, j)
    ensures IsBack(start, t, v, j)
  {
    var k :| 0 <= k < |t.inverses| && t.inverses[k] == v;
    assert InverseOk(start, t, t.inverses[k]) && MoveOk(start, t, j);
    assert t.moves[..j + 1] == t.moves[..j] + [t.moves[j]];
    LocatedAppend(start.mailbox, t.moves[..j], t.moves[j], t.moves[j].email);
  }

  lemma TrackedRestores(start: Queue, t: Queue, v: Inverse, i: nat, j: nat)
    requires Tracked(start, t) && IsReturn(t, v, j) && i < |t.moves| && t.moves[i].cause == Some(v.of)
    ensures IsRestored(start, t, v, i, j)
  {
    TrackedReturns(start, t, v, j);
    assert MoveOk(start, t, i) && CaptureOk(start, t, v.of);
    var m := t.moves[i].email;
    if forall k | t.captures[v.of].seen <= k < i :: t.moves[k].email != m {
      Undisturbed(start.mailbox, t.moves, t.captures[v.of].seen, i, m);
    }
  }

  /** Once the inverse row of a move is `applied`, its move has happened and has taken the message
      back, whoever else moved it since; and if the original was not applied before the run began,
      back to the folder its own move took it from. */
  lemma RevertRestoresTheFolder(q: Queue, ts: seq<Tick>, v: Inverse)
    requires Runs(q, ts) && Fresh(q) && v in After(q, ts).inverses
    requires v.row < |After(q, ts).rows| && After(q, ts).rows[v.row].status.Applied?
    requires IsMoveFamily(After(q, ts).rows[v.row].spec.action)
    ensures exists j: nat :: IsBack(q, After(q, ts), v, j)
    ensures AppliedAtStart(q, v.of) || exists i: nat, j: nat :: IsRestored(q, After(q, ts), v, i, j)
  {
    FreshIsTracked(q);
    RunKeepsTracked(q, q, ts);
    var t := After(q, ts);
    var k :| 0 <= k < |t.inverses| && t.inverses[k] == v;
    assert InverseOk(q, t, t.inverses[k]) && RowOk(q, t, v.row);
    var j: nat :| j < |t.moves| && t.moves[j].cause == Some(v.row);
    TrackedReturns(q, t, v, j);
    if !AppliedAtStart(q, v.of) {
      var i: nat :| i < |t.moves| && t.moves[i].cause == Some(v.of);
      TrackedRestores(q, t, v, i, j);
    }
  }

  /** Every row this code has dispatched at Tier 1 has an inverse: PRE_STATE_MISSING and
      INVERSE_UNAVAILABLE are for rows from before it. */
  lemma DispatchedRowsAreInvertible(q: Queue, ts: seq<Tick>, k: nat, now: int)
    requires Runs(q, ts) && Fresh(q) && k < |After(q, ts).dispatches|
    requires var s := After(q, ts).dispatches[k].spec; s.tier == TierFor(s.action) == 1
    ensures var t := After(q, ts); var s := t.dispatches[k];
            InverseOf(s.spec, s.id, HistoryOf(t.history, s.id), now).Some?
  {
    FreshIsTracked(q);
    RunKeepsTracked(q, q, ts);
    var t := After(q, ts);
    assert SentOk(t, t.dispatches[k]);
    assert CaptureOk(q, t, t.dispatches[k].id);
  }
}
