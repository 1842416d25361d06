/** A queue of equal rows, and drainers that take them one after the other. */
module Lines {
  import opened Actions
  import opened Tables
  import opened Queue
  import opened Reach
  import opened Flights
  import S = System

  function Reply(at: int): Spec { Spec(Some("m"), SendReply, 3, map[], at, Some("v")) }

  function Inbox(): map<string, Email> { map["m" := Email(Some("v"), false)] }

  /** Nothing proposed, nothing approved, and a mailbox with one email. */
  function Nothing(k: nat, now: int): S.Sys {
    S.Sys(Queue(now, false, [], map[], Inbox(), map[], seq(k, _ => Idle), map[], [], [], [], map[], [], [], []),
          NobodyAsked())
  }

  function Copies(n: nat, r: Row): (rows: seq<Row>)
    ensures |rows| == n && forall i | 0 <= i < n :: rows[i] == r
  {
    seq(n, _ => r)
  }

  // ----- a queue of equal rows -----

  function Upcoming(i: nat, n: nat, s: Spec): (b: seq<Picked>)
    ensures |b| == n
  {
    seq(n, j requires 0 <= j < n => Picked(i + j, s))
  }

  /** Pending, and without a stamp. */
  predicate IsWaiting(r: Row, s: Spec) { r.status.Pending? && r.spec == s && r.terminalAt.None? }

  /** All rows from `i` on wait with the spec `s`, the others are not pending. */
  predicate Line(q: Queue, i: nat, s: Spec) {
    && i <= |q.rows|
    && (forall j | 0 <= j < i :: !q.rows[j].status.Pending?)
    && (forall j | i <= j < |q.rows| :: IsWaiting(q.rows[j], s))
  }

  /** No row from `i` on has been sent. */
  predicate AllNew(q: Queue, i: nat) { forall j: nat | i <= j :: j !in q.history }

  lemma UpcomingIsDrainable(q: Queue, i: nat, s: Spec, n: nat)
    requires Line(q, i, s) && n <= BATCH_SIZE && i + n <= |q.rows| && (n < BATCH_SIZE ==> i + n == |q.rows|)
    ensures IsDrainable(q.rows, Upcoming(i, n, s), BATCH_SIZE)
  {
    var b := Upcoming(i, n, s);
    assert DrainsBefore(s, s);
    assert LeavesLater(q.rows, b);
    if n < BATCH_SIZE {
      forall id: nat | id < |q.rows| && q.rows[id].status.Pending? ensures InBatch(b, id) { assert b[id - i].id == id; }
    }
  }

  predicate IsFree(x: Drainer, i: nat, s: Spec) {
    x.Idle? || (x.Looping? && x.batch == Upcoming(i, |x.batch|, s))
  }

  lemma PollLine(o: Queue, grants: seq<Grant>, q: Queue, d: nat, i: nat, s: Spec) returns (b: seq<Picked>)
    requires Reaches(o, grants, q) && Line(q, i, s) && i < |q.rows| && !q.paused
    requires d < |q.drainers| && q.drainers[d].Idle?
    ensures b != [] && b == Upcoming(i, |b|, s) && i + |b| <= |q.rows|
    ensures Reaches(o, grants, At(q, d, Looping(b, 0)))
  {
    hide Reaches, IsDrainable;
    var n := if |q.rows| - i < BATCH_SIZE then |q.rows| - i else BATCH_SIZE;
    b := Upcoming(i, n, s);
    UpcomingIsDrainable(q, i, s, n);
    Poll(o, grants, q, d, b);
  }

  /** A free drainer gets to row `i`, with a new tick if its batch is empty. */
  lemma GetInLine(o: Queue, grants: seq<Grant>, q: Queue, d: nat, i: nat, s: Spec)
    returns (b: seq<Picked>, n: int)
    requires Reaches(o, grants, q) && Line(q, i, s) && i < |q.rows| && !q.paused
    requires d < |q.drainers| && IsFree(q.drainers[d], i, s)
    ensures b != [] && b == Upcoming(i, |b|, s) && (q.drainers[d].Idle? ==> i + |b| <= |q.rows|)
    ensures Reaches(o, grants, At(q, d, Looping(b, n)))
  {
    hide Reaches;
    var x := q.drainers[d];
    if x.Idle? {
      b := PollLine(o, grants, q, d, i, s);
      n := 0;
    } else if x.batch == [] {
      EndTick(o, grants, q, d, x.processed);
      b := PollLine(o, grants, At(q, d, Idle), d, i, s);
      n := 0;
      assert At(At(q, d, Idle), d, Looping(b, 0)) == At(q, d, Looping(b, 0));
    } else {
      b, n := x.batch, x.processed;
      assert At(q, d, Looping(b, n)) == q;
    }
  }

  /** A free drainer claims row `i`. */
  lemma ClaimNextInLine(o: Queue, grants: seq<Grant>, q: Queue, d: nat, i: nat, s: Spec) returns (t: Queue)
    requires Reaches(o, grants, q) && Line(q, i, s) && i < |q.rows| && !q.paused
    requires d < |q.drainers| && IsFree(q.drainers[d], i, s)
    ensures Reaches(o, grants, t) && d < |t.drainers|
    ensures t == At(q, d, t.drainers[d]).(rows := q.rows[i := q.rows[i].(status := Draining)])
    ensures var x := t.drainers[d]; x.Working? && x.stage.Claimed? && x.job == StartJob(Picked(i, s)) &&
                                    x.batch == Upcoming(i + 1, |x.batch|, s) &&
                                    (q.drainers[d].Idle? ==> i + 1 + |x.batch| <= |q.rows|)
  {
    hide Reaches;
    var b, n := GetInLine(o, grants, q, d, i, s);
    var r := At(q, d, Looping(b, n));
    assert b[0] == Picked(i, s) && b[1..] == Upcoming(i + 1, |b| - 1, s);
    Claim(o, grants, r, d);
    t := AfterClaim(r, d);
  }
}
