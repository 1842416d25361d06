/** The "yes, escalate" handshake: what a user's phrase authorizes, how often, for what and for how
    long. Every statement is one step and any number of turns and calls interleave. */
module Sensitive {
  import opened Actions
  import opened Timestamps

  const TTL := 10 * MINUTE

  datatype Refusal = Refusal(email: string, task: string, createdAt: int)

  /** `phrase` is the user turn behind a record; no step reads it. */
  datatype Conf = Conf(email: string, task: string, createdAt: int, consumed: bool, phrase: nat)
  datatype Arm = Arm(armedAt: int, phrase: nat)

  datatype Source = FromConf(conf: nat) | FromArm(arm: nat)

  /** A fresh authorization, the re-readable marker it leaves, and a dispatch let through. */
  datatype Use = Use(email: string, task: string, source: Source, checkedAt: int)
  datatype Marker = Marker(email: string, task: string, createdAt: int, use: nat)
  datatype Sent = Sent(email: string, task: string, marker: nat, at: int)

  /** The boundary's steps on the phrase. */
  datatype Turn =
    | Claiming(caller: string, phrase: nat)
    | Recording(email: string, task: string, phrase: nat)
    | Arming(phrase: nat)

  datatype Stage = Peeking | Finding | Consuming(conf: nat, at: int) | Disarming | Marking(use: nat)

  /** A call of `authorize_sensitive_dispatch`, or of `mint_sensitivity_token`, which starts at the
      confirmation and leaves no marker. */
  datatype Call = Call(stage: Stage, email: string, task: string, mint: bool)

  /** `phrases`, `arms` (all ever set), `uses` and `sent` record what happened; `armed` is the
      singleton row. */
  datatype World = World(
    now: int, refusals: map<string, Refusal>, confs: seq<Conf>, armed: Option<nat>, markers: seq<Marker>,
    turns: map<nat, Turn>, calls: map<nat, Call>,
    phrases: seq<int>, arms: seq<Arm>, uses: seq<Use>, sent: seq<Sent>)

  datatype Event =
    | Advance(dt: nat)
    | Refuse(caller: string, email: string, task: string)
    | Says(turn: nat, caller: string)
    | TurnNext(turn: nat)
    | Ask(call: nat, email: string, task: string, mint: bool)
    | CallNext(call: nat)

  predicate Enabled(w: World, e: Event) {
    match e
    case Says(t, _) => t !in w.turns
    case TurnNext(t) => t in w.turns
    case Ask(c, _, _, _) => c !in w.calls
    case CallNext(c) => c in w.calls
    case _ => true
  }

  // ----- the boundary -----

  /** PENDING_SENSITIVE_REFUSAL_CLAIM and the age check; then USER_CONFIRMATION_INSERT; then
      ESCALATION_ARMED_UPSERT. */
  function TurnAfter(w: World, t: Turn): Option<Turn> {
    match t
    case Claiming(caller, k) =>
      if caller in w.refusals && w.now < w.refusals[caller].createdAt + TTL
      then Some(Recording(w.refusals[caller].email, w.refusals[caller].task, k)) else Some(Arming(k))
    case Recording(_, _, k) => Some(Arming(k))
    case Arming(_) => None
  }

  predicate Turns(w: World, e: Event) { e.TurnNext? && e.turn in w.turns }

  function RefusalsAfter(w: World, e: Event): map<string, Refusal> {
    if e.Refuse? then w.refusals[e.caller := Refusal(e.email, e.task, w.now)]
    else if Turns(w, e) && w.turns[e.turn].Claiming? then w.refusals - {w.turns[e.turn].caller}
    else w.refusals
  }

  function TurnsAfter(w: World, e: Event): map<nat, Turn> {
    if e.Says? then w.turns[e.turn := Claiming(e.caller, |w.phrases|)]
    else if Turns(w, e) then
      var next := TurnAfter(w, w.turns[e.turn]);
      if next.Some? then w.turns[e.turn := next.value] else w.turns - {e.turn}
    else w.turns
  }

  predicate Confirms(w: World, e: Event) { Turns(w, e) && w.turns[e.turn].Recording? }
  predicate Arms(w: World, e: Event) { Turns(w, e) && w.turns[e.turn].Arming? }

  // ----- the dispatch seam -----

  predicate Fits(email: string, task: string, c: Call) { email == c.email && task == c.task }

  /** The newest marker of the pair. */
  predicate IsLatest(markers: seq<Marker>, m: nat, email: string, task: string) {
    && m < |markers| && markers[m].email == email && markers[m].task == task
    && forall j | m < j < |markers| :: markers[j].email != email || markers[j].task != task
  }

  /** USER_CONFIRMATION_FIND_ESCALATION_DISPATCH: the newest marker of this pair. */
  function FindMarker(markers: seq<Marker>, c: Call): (m: Option<nat>)
    ensures if m.Some? then IsLatest(markers, m.value, c.email, c.task)
            else forall j | 0 <= j < |markers| :: markers[j].email != c.email || markers[j].task != c.task
  {
    if markers == [] then None
    else if Fits(markers[|markers| - 1].email, markers[|markers| - 1].task, c) then Some(|markers| - 1)
    else FindMarker(markers[..|markers| - 1], c)
  }

  /** The newest unconsumed confirmation of the pair. */
  predicate IsNewest(confs: seq<Conf>, i: nat, email: string, task: string) {
    && i < |confs| && confs[i].email == email && confs[i].task == task && !confs[i].consumed
    && forall j | i < j < |confs| && confs[j].email == email && confs[j].task == task :: confs[j].consumed
  }

  /** USER_CONFIRMATION_FIND_SENSITIVITY: the newest unconsumed confirmation of this pair. */
  function FindConf(confs: seq<Conf>, c: Call): (i: Option<nat>)
    ensures if i.Some? then IsNewest(confs, i.value, c.email, c.task)
            else forall j | 0 <= j < |confs| && confs[j].email == c.email && confs[j].task == c.task ::
                   confs[j].consumed
  {
    if confs == [] then None
    else
      var last := confs[|confs| - 1];
      if Fits(last.email, last.task, c) && !last.consumed then Some(|confs| - 1) else FindConf(confs[..|confs| - 1], c)
  }

  /** The marker a peek lets the dispatch through on. */
  function LiveMarker(w: World, c: Call): (m: Option<nat>)
    ensures m.Some? ==> IsLatest(w.markers, m.value, c.email, c.task)
    ensures forall k: nat | IsLatest(w.markers, k, c.email, c.task) ::
              m == Some(k) <==> w.now - w.markers[k].createdAt < 10 * MINUTE
  {
    var m := FindMarker(w.markers, c);
    if m.Some? && w.now < w.markers[m.value].createdAt + TTL then m else None
  }

  /** The source a step wins for the call: the guarded consume, or the arm's delete and age check. */
  function Wins(w: World, c: Call): Option<Source> {
    match c.stage
    case Consuming(i, _) => if i < |w.confs| && !w.confs[i].consumed then Some(FromConf(i)) else None
    case Disarming =>
      if w.armed.Some? && w.armed.value < |w.arms| && w.now < w.arms[w.armed.value].armedAt + TTL
      then Some(FromArm(w.armed.value)) else None
    case _ => None
  }

  function CallAfter(w: World, c: Call): Option<Call> {
    match c.stage
    case Peeking => if LiveMarker(w, c).Some? then None else Some(c.(stage := Finding))
    case Finding =>
      var i := FindConf(w.confs, c);
      if i.Some? && w.now < w.confs[i.value].createdAt + TTL then Some(c.(stage := Consuming(i.value, w.now)))
      else Some(c.(stage := Disarming))
    case Consuming(_, _) =>
      if Wins(w, c).None? then Some(c.(stage := Disarming))
      else if c.mint then None else Some(c.(stage := Marking(|w.uses|)))
    case Disarming => if Wins(w, c).None? || c.mint then None else Some(c.(stage := Marking(|w.uses|)))
    case Marking(_) => None
  }

  predicate Runs(w: World, e: Event) { e.CallNext? && e.call in w.calls }

  function CallsAfter(w: World, e: Event): map<nat, Call> {
    if e.Ask? then w.calls[e.call := Call(if e.mint then Finding else Peeking, e.email, e.task, e.mint)]
    else if Runs(w, e) then
      var next := CallAfter(w, w.calls[e.call]);
      if next.Some? then w.calls[e.call := next.value] else w.calls - {e.call}
    else w.calls
  }

  /** When the age of the source was checked. */
  function CheckedAt(w: World, c: Call): int { if c.stage.Consuming? then c.stage.at else w.now }

  function UsesAfter(w: World, e: Event): seq<Use> {
    if Runs(w, e) && Wins(w, w.calls[e.call]).Some? then
      var c := w.calls[e.call];
      w.uses + [Use(c.email, c.task, Wins(w, c).value, CheckedAt(w, c))]
    else w.uses
  }

  function ConfsAfter(w: World, e: Event): seq<Conf> {
    if Confirms(w, e) then
      var t := w.turns[e.turn];
      w.confs + [Conf(t.email, t.task, w.now, false, t.phrase)]
    else if Runs(w, e) && Wins(w, w.calls[e.call]).Some? && w.calls[e.call].stage.Consuming? then
      w.confs[w.calls[e.call].stage.conf := w.confs[w.calls[e.call].stage.conf].(consumed := true)]
    else w.confs
  }

  function ArmedAfter(w: World, e: Event): Option<nat> {
    if Arms(w, e) then Some(|w.arms|)
    else if Runs(w, e) && w.calls[e.call].stage.Disarming? then None
    else w.armed
  }

  function MarkersAfter(w: World, e: Event): seq<Marker> {
    if Runs(w, e) && w.calls[e.call].stage.Marking? then
      var c := w.calls[e.call];
      w.markers + [Marker(c.email, c.task, w.now, c.stage.use)]
    else w.markers
  }

  function SentAfter(w: World, e: Event): seq<Sent> {
    if !Runs(w, e) then w.sent
    else
      var c := w.calls[e.call];
      if c.stage.Marking? then w.sent + [Sent(c.email, c.task, |w.markers|, w.now)]
      else if c.stage.Peeking? && LiveMarker(w, c).Some? then
        w.sent + [Sent(c.email, c.task, LiveMarker(w, c).value, w.now)]
      else w.sent
  }

  function Step(w: World, e: Event): World
    requires Enabled(w, e)
  {
    World(if e.Advance? then w.now + e.dt else w.now,
          RefusalsAfter(w, e), ConfsAfter(w, e), ArmedAfter(w, e), MarkersAfter(w, e),
          TurnsAfter(w, e), CallsAfter(w, e),
          if e.Says? then w.phrases + [w.now] else w.phrases,
          if Arms(w, e) then w.arms + [Arm(w.now, w.turns[e.turn].phrase)] else w.arms,
          UsesAfter(w, e), SentAfter(w, e))
  }

  ghost predicate IsRun(w: World, es: seq<Event>)
    decreases |es|
  {
    es == [] || (Enabled(w, es[0]) && IsRun(Step(w, es[0]), es[1..]))
  }

  ghost function After(w: World, es: seq<Event>): World
    requires IsRun(w, es)
    decreases |es|
  {
    if es == [] then w else After(Step(w, es[0]), es[1..])
  }

  lemma {:induction false} RunExtends(w: World, es: seq<Event>, e: Event)
    requires IsRun(w, es) && Enabled(After(w, es), e)
    ensures IsRun(w, es + [e]) && After(w, es + [e]) == Step(After(w, es), e)
    decreases |es|
  {
    if es == [] {
      assert es + [e] == [e] && [e][1..] == [];
    } else {
      assert (es + [e])[1..] == es[1..] + [e];
      RunExtends(Step(w, es[0]), es[1..], e);
    }
  }

  /** All but the last step of a run are a run. */
  lemma {:induction false} LastStep(w: World, es: seq<Event>)
    requires IsRun(w, es) && es != []
    ensures var n := |es| - 1;
            && IsRun(w, es[..n]) && Enabled(After(w, es[..n]), es[n])
            && After(w, es) == Step(After(w, es[..n]), es[n])
    decreases |es|
  {
    var n := |es| - 1;
    if n == 0 {
      assert es[..0] == [] && es[1..] == [];
    } else {
      assert es[..n][0] == es[0] && es[..n][1..] == es[1..][..n - 1];
      LastStep(Step(w, es[0]), es[1..]);
    }
  }

  // ----- what each statement decides -----

  /** The look-up goes on to consume a confirmation exactly if it is the newest unconsumed one of the pair
      and less than ten minutes old; otherwise the call turns to the arm. */
  lemma PursuedIff(w: World, k: nat)
    requires k in w.calls && w.calls[k].stage.Finding?
    ensures var c, next := w.calls[k], Step(w, CallNext(k)).calls;
            && k in next && next[k].email == c.email && next[k].task == c.task
            && (next[k].stage.Consuming? || next[k].stage.Disarming?)
            && forall i: nat :: next[k].stage == Consuming(i, w.now) <==>
                 IsNewest(w.confs, i, c.email, c.task) && w.now - w.confs[i].createdAt < 10 * MINUTE
  {
    assert CallsAfter(w, CallNext(k)) == w.calls[k := CallAfter(w, w.calls[k]).value];
  }

  /** The update wins a confirmation exactly if nobody has consumed it since, and consumes it. */
  lemma WonIff(w: World, k: nat)
    requires k in w.calls && w.calls[k].stage.Consuming? && w.calls[k].stage.conf < |w.confs|
    ensures var i, v := w.calls[k].stage.conf, Step(w, CallNext(k));
            && |v.confs| == |w.confs| && v.confs[i].consumed
            && |v.uses| == |w.uses| + (if w.confs[i].consumed then 0 else 1)
            && (!w.confs[i].consumed ==> v.uses[|w.uses|].source == FromConf(i))
            && forall j | 0 <= j < |w.confs| && j != i :: v.confs[j] == w.confs[j]
  {
  }

  /** The arm is won exactly if it is set and less than ten minutes old, and it is gone either way. */
  lemma ArmWonIff(w: World, k: nat)
    requires k in w.calls && w.calls[k].stage.Disarming? && (w.armed.Some? ==> w.armed.value < |w.arms|)
    ensures var v := Step(w, CallNext(k));
            && v.armed.None? && v.confs == w.confs
            && |v.uses| == |w.uses| +
                 (if w.armed.Some? && w.now - w.arms[w.armed.value].armedAt < 10 * MINUTE then 1 else 0)
  {
  }

  /** The peek lets a dispatch through exactly if the pair's newest marker is less than ten minutes old. */
  lemma PeekedIff(w: World, k: nat)
    requires k in w.calls && w.calls[k].stage.Peeking?
    ensures var c, v := w.calls[k], Step(w, CallNext(k));
            && (k !in v.calls <==> |v.sent| == |w.sent| + 1) && (k in v.calls ==> v.sent == w.sent)
            && (k !in v.calls <==> exists m: nat ::
                  IsLatest(w.markers, m, c.email, c.task) && w.now - w.markers[m].createdAt < 10 * MINUTE)
  {
  }

  /** The phrase confirms the caller's refusal exactly if it is less than ten minutes old, and takes it away
      either way. */
  lemma RefusalTakenIff(w: World, t: nat)
    requires t in w.turns && w.turns[t].Claiming?
    ensures var caller, v := w.turns[t].caller, Step(w, TurnNext(t));
            && t in v.turns && caller !in v.refusals
            && (v.turns[t].Recording? <==> caller in w.refusals && w.now - w.refusals[caller].createdAt < 10 * MINUTE)
            && (v.turns[t].Recording? ==>
                  v.turns[t].email == w.refusals[caller].email && v.turns[t].task == w.refusals[caller].task)
            && (!v.turns[t].Recording? ==> v.turns[t].Arming?)
  {
  }

  // ----- the invariant -----

  /** The record stands on a phrase spoken before it. */
  predicate Spoken(phrases: seq<int>, k: nat, at: int, now: int) { k < |phrases| && phrases[k] <= at <= now }

  predicate HasUse(uses: seq<Use>, s: Source) {
    exists i | 0 <= i < |uses| :: uses[i].source == s
  }

  predicate UseOk(w: World, u: Use) {
    && u.checkedAt <= w.now
    && match u.source
       case FromConf(i) =>
         && i < |w.confs| && w.confs[i].consumed && w.confs[i].email == u.email && w.confs[i].task == u.task
         && w.confs[i].createdAt <= u.checkedAt < w.confs[i].createdAt + TTL
       case FromArm(k) =>
         k < |w.arms| && w.armed != Some(k) && w.arms[k].armedAt <= u.checkedAt < w.arms[k].armedAt + TTL
  }

  predicate MarkerOk(w: World, m: Marker) {
    && m.use < |w.uses| && w.uses[m.use].email == m.email && w.uses[m.use].task == m.task
    && w.uses[m.use].checkedAt <= m.createdAt <= w.now
  }

  predicate SentOk(w: World, s: Sent) {
    && s.marker < |w.markers| && w.markers[s.marker].email == s.email && w.markers[s.marker].task == s.task
    && w.markers[s.marker].createdAt <= s.at < w.markers[s.marker].createdAt + TTL
  }

  predicate CallOk(w: World, c: Call) {
    && (c.stage.Consuming? ==>
          && c.stage.at <= w.now && c.stage.conf < |w.confs|
          && Fits(w.confs[c.stage.conf].email, w.confs[c.stage.conf].task, c)
          && w.confs[c.stage.conf].createdAt <= c.stage.at < w.confs[c.stage.conf].createdAt + TTL)
    && (c.stage.Marking? ==>
          && c.stage.use < |w.uses| && Fits(w.uses[c.stage.use].email, w.uses[c.stage.use].task, c)
          && w.uses[c.stage.use].checkedAt <= w.now)
  }

  ghost predicate Backed(w: World) {
    && (forall i | 0 <= i < |w.uses| :: UseOk(w, w.uses[i]))
    && (forall i, j | 0 <= i < j < |w.uses| :: w.uses[i].source != w.uses[j].source)
    && (forall i | 0 <= i < |w.markers| :: MarkerOk(w, w.markers[i]))
    && (forall i | 0 <= i < |w.sent| :: SentOk(w, w.sent[i]))
    && (forall c | c in w.calls :: CallOk(w, w.calls[c]))
    && (w.armed.Some? ==> w.armed.value < |w.arms|)
    && (forall i | 0 <= i < |w.confs| :: w.confs[i].createdAt <= w.now)
    && (forall i | 0 <= i < |w.arms| :: w.arms[i].armedAt <= w.now)
  }

  predicate IsUnmarked(markers: seq<Marker>, use: nat) { forall i | 0 <= i < |markers| :: markers[i].use != use }

  /** Each authorization has one marker, or one call that is about to leave it. */
  ghost predicate Single(w: World) {
    && (forall i, j | 0 <= i < j < |w.markers| :: w.markers[i].use != w.markers[j].use)
    && (forall c | c in w.calls && w.calls[c].stage.Marking? :: IsUnmarked(w.markers, w.calls[c].stage.use))
    && (forall c, d | c in w.calls && d in w.calls && c != d &&
                      w.calls[c].stage.Marking? && w.calls[d].stage.Marking? ::
          w.calls[c].stage.use != w.calls[d].stage.use)
  }

  /** A turn's phrase has no confirmation before it records one and no arm before it arms. */
  predicate TurnOk(w: World, t: Turn) {
    && t.phrase < |w.phrases| && w.phrases[t.phrase] <= w.now
    && (!t.Arming? ==> forall i | 0 <= i < |w.confs| :: w.confs[i].phrase != t.phrase)
    && (forall i | 0 <= i < |w.arms| :: w.arms[i].phrase != t.phrase)
  }

  ghost predicate Heard(w: World) {
    && (forall i | 0 <= i < |w.confs| :: Spoken(w.phrases, w.confs[i].phrase, w.confs[i].createdAt, w.now))
    && (forall i | 0 <= i < |w.arms| :: Spoken(w.phrases, w.arms[i].phrase, w.arms[i].armedAt, w.now))
    && (forall i, j | 0 <= i < j < |w.confs| :: w.confs[i].phrase != w.confs[j].phrase)
    && (forall i, j | 0 <= i < j < |w.arms| :: w.arms[i].phrase != w.arms[j].phrase)
    && (forall t | t in w.turns :: TurnOk(w, w.turns[t]))
    && (forall t, u | t in w.turns && u in w.turns && t != u :: w.turns[t].phrase != w.turns[u].phrase)
  }

  lemma SaysKeepsHeard(w: World, e: Event)
    requires Enabled(w, e) && Heard(w) && e.Says?
    ensures Heard(Step(w, e))
  {
    var v := Step(w, e);
    FreshPhrase(w);
    forall t | t in v.turns ensures TurnOk(v, v.turns[t]) {
      if t in w.turns { assert TurnOk(w, w.turns[t]); }
    }
  }

  lemma TurnKeepsHeard(w: World, e: Event)
    requires Enabled(w, e) && Heard(w) && e.TurnNext?
    ensures Heard(Step(w, e))
  {
    var v := Step(w, e);
    assert TurnOk(w, w.turns[e.turn]);
    forall t | t in v.turns ensures TurnOk(v, v.turns[t]) {
      assert TurnOk(w, w.turns[t]);
      assert t != e.turn ==> w.turns[t].phrase != w.turns[e.turn].phrase;
    }
  }

  lemma OthersKeepHeard(w: World, e: Event)
    requires Enabled(w, e) && Heard(w) && !e.Says? && !e.TurnNext?
    ensures Heard(Step(w, e))
  {
    var v := Step(w, e);
    assert v.turns == w.turns && v.arms == w.arms && v.phrases == w.phrases && w.now <= v.now;
    assert |v.confs| == |w.confs| && forall i | 0 <= i < |w.confs| ::
                                       v.confs[i] == w.confs[i].(consumed := v.confs[i].consumed);
    forall t | t in v.turns ensures TurnOk(v, v.turns[t]) { assert TurnOk(w, w.turns[t]); }
  }

  lemma StepKeepsHeard(w: World, e: Event)
    requires Enabled(w, e) && Heard(w)
    ensures Heard(Step(w, e))
  {
    if e.Says? { SaysKeepsHeard(w, e); } else if e.TurnNext? { TurnKeepsHeard(w, e); } else { OthersKeepHeard(w, e); }
  }

  lemma FreshPhrase(w: World)
    requires Heard(w)
    ensures forall i | 0 <= i < |w.confs| :: w.confs[i].phrase < |w.phrases|
    ensures forall i | 0 <= i < |w.arms| :: w.arms[i].phrase < |w.phrases|
    ensures forall t | t in w.turns :: w.turns[t].phrase < |w.phrases|
  {
    forall i | 0 <= i < |w.confs| ensures w.confs[i].phrase < |w.phrases| {
      assert Spoken(w.phrases, w.confs[i].phrase, w.confs[i].createdAt, w.now);
    }
    forall i | 0 <= i < |w.arms| ensures w.arms[i].phrase < |w.phrases| {
      assert Spoken(w.phrases, w.arms[i].phrase, w.arms[i].armedAt, w.now);
    }
  }

  /** What no step takes back. */
  predicate Extends(w: World, v: World) {
    && w.now <= v.now && w.arms <= v.arms && w.uses <= v.uses && w.markers <= v.markers
    && |w.confs| <= |v.confs|
    && (forall i | 0 <= i < |w.confs| ::
          v.confs[i] == w.confs[i].(consumed := v.confs[i].consumed) && (w.confs[i].consumed ==> v.confs[i].consumed))
  }

  lemma StepExtends(w: World, e: Event)
    requires Enabled(w, e)
    ensures Extends(w, Step(w, e))
  {
  }

  lemma UseKept(w: World, v: World, u: Use)
    requires UseOk(w, u) && Extends(w, v) && (u.source.FromArm? ==> v.armed != Some(u.source.arm))
    ensures UseOk(v, u)
  {
  }

  lemma CallKept(w: World, v: World, c: Call)
    requires CallOk(w, c) && Extends(w, v)
    ensures CallOk(v, c)
  {
  }

  /** A used arm is never the armed one again: arming sets a new one. */
  lemma UsedArmsStayDown(w: World, e: Event, u: Use)
    requires Enabled(w, e) && UseOk(w, u) && u.source.FromArm?
    ensures ArmedAfter(w, e) != Some(u.source.arm)
  {
  }

  /** What a step wins has never been used. */
  lemma WinsAreFresh(w: World, e: Event)
    requires Enabled(w, e) && Backed(w) && Runs(w, e) && Wins(w, w.calls[e.call]).Some?
    ensures !HasUse(w.uses, Wins(w, w.calls[e.call]).value)
    ensures var c := w.calls[e.call]; UseOk(Step(w, e), Use(c.email, c.task, Wins(w, c).value, CheckedAt(w, c)))
  {
    var c := w.calls[e.call];
    assert CallOk(w, c);
    forall i | 0 <= i < |w.uses| ensures w.uses[i].source != Wins(w, c).value { assert UseOk(w, w.uses[i]); }
  }

  lemma StepKeepsUses(w: World, e: Event)
    requires Enabled(w, e) && Backed(w)
    ensures var v := Step(w, e);
            && (forall i | 0 <= i < |v.uses| :: UseOk(v, v.uses[i]))
            && (forall i, j | 0 <= i < j < |v.uses| :: v.uses[i].source != v.uses[j].source)
            && (v.armed.Some? ==> v.armed.value < |v.arms|)
            && (forall i | 0 <= i < |v.confs| :: v.confs[i].createdAt <= v.now)
            && (forall i | 0 <= i < |v.arms| :: v.arms[i].armedAt <= v.now)
  {
    var v := Step(w, e);
    StepExtends(w, e);
    if Runs(w, e) && Wins(w, w.calls[e.call]).Some? { WinsAreFresh(w, e); }
    forall i | 0 <= i < |v.uses| ensures UseOk(v, v.uses[i]) {
      if i < |w.uses| {
        assert UseOk(w, w.uses[i]);
        if w.uses[i].source.FromArm? { UsedArmsStayDown(w, e, w.uses[i]); }
        UseKept(w, v, w.uses[i]);
      }
    }
  }

  lemma StepKeepsMarkers(w: World, e: Event)
    requires Enabled(w, e) && Backed(w)
    ensures var v := Step(w, e);
            && (forall i | 0 <= i < |v.markers| :: MarkerOk(v, v.markers[i]))
            && (forall i | 0 <= i < |v.sent| :: SentOk(v, v.sent[i]))
  {
    var v := Step(w, e);
    StepExtends(w, e);
    if Runs(w, e) { assert CallOk(w, w.calls[e.call]); }
    forall i | 0 <= i < |v.markers| ensures MarkerOk(v, v.markers[i]) {
      if i < |w.markers| { assert MarkerOk(w, w.markers[i]); }
    }
    forall i | 0 <= i < |v.sent| ensures SentOk(v, v.sent[i]) {
      if i < |w.sent| {
        assert SentOk(w, w.sent[i]);
      } else {
        var c := w.calls[e.call];
        if c.stage.Peeking? { assert MarkerOk(w, w.markers[LiveMarker(w, c).value]); }
      }
    }
  }

  lemma StepKeepsCalls(w: World, e: Event)
    requires Enabled(w, e) && Backed(w)
    ensures forall c | c in Step(w, e).calls :: CallOk(Step(w, e), Step(w, e).calls[c])
  {
    var v := Step(w, e);
    StepExtends(w, e);
    if Runs(w, e) { CallMoves(w, e); }
    forall c | c in v.calls ensures CallOk(v, v.calls[c]) {
      if c in w.calls && v.calls[c] == w.calls[c] { CallKept(w, v, w.calls[c]); }
    }
  }

  lemma CallMoves(w: World, e: Event)
    requires Enabled(w, e) && Backed(w) && Runs(w, e)
    ensures CallAfter(w, w.calls[e.call]).Some? ==> CallOk(Step(w, e), CallAfter(w, w.calls[e.call]).value)
  {
    assert CallOk(w, w.calls[e.call]);
  }

  lemma StepKeepsBacked(w: World, e: Event)
    requires Enabled(w, e) && Backed(w)
    ensures Backed(Step(w, e))
  {
    StepKeepsUses(w, e);
    StepKeepsMarkers(w, e);
    StepKeepsCalls(w, e);
  }

  /** What is known of every authorization number in use. */
  lemma UsesAreKnown(w: World)
    requires Backed(w)
    ensures forall i | 0 <= i < |w.markers| :: w.markers[i].use < |w.uses|
    ensures forall c | c in w.calls && w.calls[c].stage.Marking? :: w.calls[c].stage.use < |w.uses|
  {
    forall i | 0 <= i < |w.markers| ensures w.markers[i].use < |w.uses| { assert MarkerOk(w, w.markers[i]); }
    forall c | c in w.calls && w.calls[c].stage.Marking? ensures w.calls[c].stage.use < |w.uses| {
      assert CallOk(w, w.calls[c]);
    }
  }

  /** Only a call that has just won comes to its marker. */
  lemma NewMarking(w: World, e: Event, c: nat)
    requires Enabled(w, e) && c in Step(w, e).calls && Step(w, e).calls[c].stage.Marking?
    ensures var call := Step(w, e).calls[c];
            (c in w.calls && call == w.calls[c]) || (call.stage.use == |w.uses| && e == CallNext(c))
  {
  }

  lemma StepKeepsSingle(w: World, e: Event)
    requires Enabled(w, e) && Backed(w) && Single(w)
    ensures Single(Step(w, e))
  {
    UsesAreKnown(w);
    var v := Step(w, e);
    forall c | c in v.calls && v.calls[c].stage.Marking?
      ensures (c in w.calls && v.calls[c] == w.calls[c]) || (v.calls[c].stage.use == |w.uses| && e == CallNext(c))
    {
      NewMarking(w, e, c);
    }
    assert v.markers == MarkersAfter(w, e) && v.calls == CallsAfter(w, e);
    hide Step, CallAfter, Backed, LiveMarker, Wins;
  }

  lemma {:induction false} RunKeepsSound(w: World, es: seq<Event>)
    requires IsRun(w, es) && Heard(w) && Backed(w) && Single(w)
    ensures Heard(After(w, es)) && Backed(After(w, es)) && Single(After(w, es))
    decreases |es|
  {
    if es != [] {
      StepKeepsHeard(w, es[0]);
      StepKeepsBacked(w, es[0]);
      StepKeepsSingle(w, es[0]);
      RunKeepsSound(Step(w, es[0]), es[1..]);
    }
  }

  // ----- what the user's phrase is worth -----

  /** No confirmation, arm, marker or call yet; refusals may be pending. */
  predicate IsStart(w: World) {
    && w.confs == [] && w.armed.None? && w.markers == [] && w.turns == map[] && w.calls == map[]
    && w.phrases == [] && w.arms == [] && w.uses == [] && w.sent == []
  }

  function SourceTime(w: World, s: Source): int
    requires match s case FromConf(i) => i < |w.confs| case FromArm(k) => k < |w.arms|
  {
    match s case FromConf(i) => w.confs[i].createdAt case FromArm(k) => w.arms[k].armedAt
  }

  function SourcePhrase(w: World, s: Source): nat
    requires match s case FromConf(i) => i < |w.confs| case FromArm(k) => k < |w.arms|
  {
    match s case FromConf(i) => w.confs[i].phrase case FromArm(k) => w.arms[k].phrase
  }

  predicate IsSource(w: World, s: Source) {
    match s case FromConf(i) => i < |w.confs| case FromArm(k) => k < |w.arms|
  }

  /** What stands behind one dispatch: its own pair's marker, under ten minutes old and the only one of its
      authorization; that authorization, of the same pair, checked its source under ten minutes after it
      was set; and a phrase set it. */
  predicate IsAuthorized(w: World, s: Sent) {
    && s.marker < |w.markers|
    && var m := w.markers[s.marker];
       && m.email == s.email && m.task == s.task && m.use < |w.uses|
       && m.createdAt <= s.at < m.createdAt + TTL
       && (forall i | 0 <= i < |w.markers| && i != s.marker :: w.markers[i].use != m.use)
       && var u := w.uses[m.use];
          && u.email == s.email && u.task == s.task && IsSource(w, u.source)
          && (u.source.FromConf? ==> w.confs[u.source.conf].email == s.email && w.confs[u.source.conf].task == s.task)
          && SourceTime(w, u.source) <= u.checkedAt < SourceTime(w, u.source) + TTL && u.checkedAt <= m.createdAt
          && SourcePhrase(w, u.source) < |w.phrases| && w.phrases[SourcePhrase(w, u.source)] <= SourceTime(w, u.source)
  }

  /** How long after its phrase the dispatch came. */
  function Age(w: World, s: Sent): int
    requires IsAuthorized(w, s)
  {
    s.at - w.phrases[SourcePhrase(w, w.uses[w.markers[s.marker].use].source)]
  }

  lemma DispatchIsAuthorized(w: World, i: nat)
    requires Heard(w) && Backed(w) && Single(w) && i < |w.sent|
    ensures IsAuthorized(w, w.sent[i])
  {
    var s := w.sent[i];
    assert SentOk(w, s);
    var m := w.markers[s.marker];
    assert MarkerOk(w, m);
    forall j | 0 <= j < |w.markers| && j != s.marker ensures w.markers[j].use != m.use {
      assert w.markers[if j < s.marker then j else s.marker].use != w.markers[if j < s.marker then s.marker else j].use;
    }
    var u := w.uses[m.use];
    assert UseOk(w, u);
    match u.source
    case FromConf(k) => assert Spoken(w.phrases, w.confs[k].phrase, w.confs[k].createdAt, w.now);
    case FromArm(k) => assert Spoken(w.phrases, w.arms[k].phrase, w.arms[k].armedAt, w.now);
  }

  // ----- how late a write can come -----

  /** The step's write, if it is one, comes within `latency` of the clock reading it follows: a turn's of its
      phrase, a marker's of the age check that let it through. */
  predicate IsPrompt(w: World, e: Event, latency: nat) {
    && (Confirms(w, e) || Arms(w, e) ==>
          w.turns[e.turn].phrase < |w.phrases| && w.now <= w.phrases[w.turns[e.turn].phrase] + latency)
    && (Runs(w, e) && w.calls[e.call].stage.Marking? ==>
          w.calls[e.call].stage.use < |w.uses| && w.now <= w.uses[w.calls[e.call].stage.use].checkedAt + latency)
  }

  ghost predicate AllPrompt(w: World, es: seq<Event>, latency: nat)
    requires IsRun(w, es)
    decreases |es|
  {
    es != [] ==> IsPrompt(w, es[0], latency) && AllPrompt(Step(w, es[0]), es[1..], latency)
  }

  /** What prompt writes leave. */
  ghost predicate Timely(w: World, latency: nat) {
    && (forall i | 0 <= i < |w.confs| ::
          w.confs[i].phrase < |w.phrases| && w.confs[i].createdAt <= w.phrases[w.confs[i].phrase] + latency)
    && (forall i | 0 <= i < |w.arms| ::
          w.arms[i].phrase < |w.phrases| && w.arms[i].armedAt <= w.phrases[w.arms[i].phrase] + latency)
    && (forall i | 0 <= i < |w.markers| ::
          w.markers[i].use < |w.uses| && w.markers[i].createdAt <= w.uses[w.markers[i].use].checkedAt + latency)
  }

  lemma StepKeepsTimely(w: World, e: Event, latency: nat)
    requires Enabled(w, e) && Timely(w, latency) && IsPrompt(w, e, latency)
    ensures Timely(Step(w, e), latency)
  {
    StepExtends(w, e);
  }

  lemma {:induction false} RunKeepsTimely(w: World, es: seq<Event>, latency: nat)
    requires IsRun(w, es) && Timely(w, latency) && AllPrompt(w, es, latency)
    ensures Timely(After(w, es), latency)
    decreases |es|
  {
    if es != [] {
      StepKeepsTimely(w, es[0], latency);
      RunKeepsTimely(Step(w, es[0]), es[1..], latency);
    }
  }

  /** The greatest age of a phrase: twice ten minutes, twice the latency, less the instants at which each
      window has just closed. */
  function MaxAge(latency: nat): int { 2 * TTL + 2 * latency - 2 }

  lemma AgeIsBounded(w: World, s: Sent, latency: nat)
    requires IsAuthorized(w, s) && Timely(w, latency)
    ensures 0 <= Age(w, s) <= MaxAge(latency)
  {
    var m := w.markers[s.marker];
    var u := w.uses[m.use];
    match u.source
    case FromConf(k) => assert w.confs[k].createdAt <= w.phrases[w.confs[k].phrase] + latency;
    case FromArm(k) => assert w.arms[k].armedAt <= w.phrases[w.arms[k].phrase] + latency;
  }

  ghost predicate AllAuthorized(w: World) { forall i | 0 <= i < |w.sent| :: IsAuthorized(w, w.sent[i]) }

  /** No dispatch comes more than twenty minutes and twice the latency after its phrase. */
  ghost predicate AllInTime(w: World, latency: nat)
    requires AllAuthorized(w)
  {
    forall i | 0 <= i < |w.sent| :: 0 <= Age(w, w.sent[i]) <= MaxAge(latency)
  }

  lemma StartIsSound(w: World, latency: nat)
    requires IsStart(w)
    ensures Heard(w) && Backed(w) && Single(w) && Timely(w, latency)
  {
  }

  /** No source has been used twice, and no authorization has two markers. */
  ghost predicate AuthorizesOnce(w: World) {
    && (forall i, j | 0 <= i < j < |w.uses| :: w.uses[i].source != w.uses[j].source)
    && (forall i, j | 0 <= i < j < |w.markers| :: w.markers[i].use != w.markers[j].use)
  }

  lemma EverySendIsAuthorized(w: World)
    requires Heard(w) && Backed(w) && Single(w)
    ensures AllAuthorized(w) && AuthorizesOnce(w)
  {
    assert AuthorizesOnce(w);
    hide Heard, Backed, Single, IsAuthorized;
    forall i | 0 <= i < |w.sent| ensures IsAuthorized(w, w.sent[i]) { DispatchIsAuthorized(w, i); }
  }

  lemma EverySendIsInTime(w: World, latency: nat)
    requires AllAuthorized(w) && Timely(w, latency)
    ensures AllInTime(w, latency)
  {
    hide IsAuthorized, Timely, Age, MaxAge;
    forall i | 0 <= i < |w.sent| ensures 0 <= Age(w, w.sent[i]) <= MaxAge(latency) {
      AgeIsBounded(w, w.sent[i], latency);
    }
  }

  /** In every run: every dispatch is authorized for its own email and task by a phrase, no more than twenty
      minutes and twice the latency of its writes ago; each confirmation and each arm authorizes once, and
      each authorization leaves one marker. */
  lemma SensitiveDispatchesAreAuthorized(w: World, es: seq<Event>, latency: nat)
    requires IsRun(w, es) && IsStart(w)
    ensures AllAuthorized(After(w, es))
    ensures AllPrompt(w, es, latency) ==> AllInTime(After(w, es), latency)
    ensures AuthorizesOnce(After(w, es))
  {
    hide *;
    StartIsSound(w, latency);
    RunKeepsSound(w, es);
    EverySendIsAuthorized(After(w, es));
    if AllPrompt(w, es, latency) {
      RunKeepsTimely(w, es, latency);
      EverySendIsInTime(After(w, es), latency);
    }
  }

  // ----- what leaves a marker, and what does not -----

  /** Until when dispatches of the pair are let through without a fresh authorization. */
  function LiveUntil(markers: seq<Marker>, c: Call): Option<int> {
    var m := FindMarker(markers, c);
    if m.Some? then Some(markers[m.value].createdAt + TTL) else None
  }

  /** The last step of a fresh authorization of the pair. */
  predicate LeavesMarker(w: World, e: Event, c: Call) {
    Runs(w, e) && w.calls[e.call].stage.Marking? && Fits(w.calls[e.call].email, w.calls[e.call].task, c)
  }

  ghost predicate NeverLeavesMarker(w: World, es: seq<Event>, c: Call)
    requires IsRun(w, es)
    decreases |es|
  {
    es != [] ==> !LeavesMarker(w, es[0], c) && NeverLeavesMarker(Step(w, es[0]), es[1..], c)
  }

  lemma OtherMarkersAreSkipped(markers: seq<Marker>, m: Marker, c: Call)
    requires !Fits(m.email, m.task, c)
    ensures LiveUntil(markers + [m], c) == LiveUntil(markers, c)
  {
    assert (markers + [m])[..|markers|] == markers;
  }

  /** Peeking never extends: whatever is peeked, asked, said and refused, and however often, a pair is let
      through exactly as long as before, until a fresh authorization of this pair is complete. */
  lemma {:induction false} PeekingNeverExtends(w: World, es: seq<Event>, c: Call)
    requires IsRun(w, es) && NeverLeavesMarker(w, es, c)
    ensures LiveUntil(After(w, es).markers, c) == LiveUntil(w.markers, c)
    decreases |es|
  {
    if es != [] {
      var e := es[0];
      if Runs(w, e) && w.calls[e.call].stage.Marking? {
        var d := w.calls[e.call];
        OtherMarkersAreSkipped(w.markers, Marker(d.email, d.task, w.now, d.stage.use), c);
      }
      PeekingNeverExtends(Step(w, e), es[1..], c);
    }
  }

  /** The call has won its `use`-th authorization at step `i` and made no statement since. */
  ghost predicate Won(w: World, es: seq<Event>, i: nat, c: nat, use: nat) {
    && i < |es| && IsRun(w, es[..i])
    && var u := After(w, es[..i]);
       && es[i] == CallNext(c) && c in u.calls && Wins(u, u.calls[c]).Some? && |u.uses| == use
       && forall k | i < k < |es| :: es[k] != CallNext(c)
  }

  lemma MarkingStep(w: World, e: Event, c: nat)
    requires Enabled(w, e) && c in Step(w, e).calls && Step(w, e).calls[c].stage.Marking? && c in w.calls
    ensures if e == CallNext(c) then Wins(w, w.calls[c]).Some? && Step(w, e).calls[c].stage.use == |w.uses|
            else Step(w, e).calls[c] == w.calls[c]
  {
  }

  lemma NewCallsDoNotMark(w: World, e: Event, c: nat)
    requires Enabled(w, e) && c in Step(w, e).calls && Step(w, e).calls[c].stage.Marking?
    ensures c in w.calls
  {
  }

  lemma {:induction false} MarkingWasWon(w: World, es: seq<Event>, c: nat) returns (i: nat)
    requires IsRun(w, es) && w.calls == map[]
    requires c in After(w, es).calls && After(w, es).calls[c].stage.Marking?
    ensures Won(w, es, i, c, After(w, es).calls[c].stage.use)
    decreases |es|
  {
    if es != [] {
      var n := |es| - 1;
      LastStep(w, es);
      var u := After(w, es[..n]);
      NewCallsDoNotMark(u, es[n], c);
      MarkingStep(u, es[n], c);
      hide Step, Enabled, IsRun, After, Wins;
      if es[n] == CallNext(c) {
        i := n;
      } else {
        i := MarkingWasWon(w, es[..n], c);
        assert es[..n][..i] == es[..i];
        assert forall k | i < k < n :: es[k] == es[..n][k];
      }
    }
  }

  /** The call won the marker's authorization at step `i`, and left the marker with its next statement, step
      `j`, which stamped it. */
  ghost predicate IsLeftBy(w: World, es: seq<Event>, m: Marker, i: nat, j: nat, c: nat) {
    && j < |es| && es[j] == CallNext(c) && Won(w, es[..j], i, c, m.use) && IsRun(w, es[..j])
    && var u := After(w, es[..j]);
       && c in u.calls && u.calls[c].stage == Marking(m.use)
       && m == Marker(u.calls[c].email, u.calls[c].task, u.now, m.use)
  }

  /** Every marker was left by the call that won its authorization, as its very next statement. */
  lemma {:induction false} MarkersAreOfWinners(w: World, es: seq<Event>, k: nat) returns (i: nat, j: nat, c: nat)
    requires IsRun(w, es) && IsStart(w) && k < |After(w, es).markers|
    ensures IsLeftBy(w, es, After(w, es).markers[k], i, j, c)
    decreases |es|
  {
    if es != [] {
      var n := |es| - 1;
      LastStep(w, es);
      var u := After(w, es[..n]);
      if k < |u.markers| {
        i, j, c := MarkersAreOfWinners(w, es[..n], k);
        assert es[..n][..j] == es[..j];
      } else {
        j, c := n, es[n].call;
        i := MarkingWasWon(w, es[..n], c);
      }
    }
  }

  /** A phrase authorizes afresh at most twice: once by the confirmation it recorded, which takes a
      pending refusal, and once by the arm it always sets. */
  lemma TwoUsesOfOnePhrase(w: World, es: seq<Event>, i: nat, j: nat)
    requires IsRun(w, es) && IsStart(w)
    requires var v := After(w, es);
             && i < |v.uses| && j < |v.uses| && i != j && IsSource(v, v.uses[i].source) && IsSource(v, v.uses[j].source)
             && SourcePhrase(v, v.uses[i].source) == SourcePhrase(v, v.uses[j].source)
    ensures var v := After(w, es); v.uses[i].source.FromConf? != v.uses[j].source.FromConf?
  {
    RunKeepsSound(w, es);
    var v := After(w, es);
    assert UseOk(v, v.uses[i]) && UseOk(v, v.uses[j]);
    assert v.uses[if i < j then i else j].source != v.uses[if i < j then j else i].source;
  }

  // ----- the oldest phrase that lets a dispatch through -----

  lemma {:induction false} PromptExtends(w: World, es: seq<Event>, e: Event, latency: nat)
    requires IsRun(w, es) && AllPrompt(w, es, latency)
    requires Enabled(After(w, es), e) && IsPrompt(After(w, es), e, latency)
    ensures IsRun(w, es + [e]) && After(w, es + [e]) == Step(After(w, es), e) && AllPrompt(w, es + [e], latency)
    decreases |es|
  {
    hide Enabled, Step, IsPrompt;
    RunExtends(w, es, e);
    if es == [] {
      assert es + [e] == [e] && [e][1..] == [];
    } else {
      assert (es + [e])[1..] == es[1..] + [e];
      PromptExtends(Step(w, es[0]), es[1..], e, latency);
    }
  }

  /** A prompt run of the start to the state. */
  ghost predicate Leads(w: World, es: seq<Event>, latency: nat, v: World) {
    IsRun(w, es) && AllPrompt(w, es, latency) && After(w, es) == v
  }

  lemma Follow(w: World, es: seq<Event>, latency: nat, u: World, e: Event, v: World) returns (more: seq<Event>)
    requires Leads(w, es, latency, u) && Enabled(u, e) && Step(u, e) == v && IsPrompt(u, e, latency)
    ensures Leads(w, more, latency, v)
  {
    hide Step, Enabled, IsPrompt;
    PromptExtends(w, es, e, latency);
    more := es + [e];
  }

  function Quiet(): World { World(0, map[], [], None, [], map[], map[], [], [], [], []) }

  function Asking(w: World, c: nat, stage: Stage): World { w.(calls := map[c := Call(stage, "m", "t", false)]) }

  /** The phrase is spoken at 0 and its turn arms at `a`. */
  function Armed(a: nat): World { Quiet().(now := a, phrases := [0], armed := Some(0), arms := [Arm(a, 0)]) }

  /** The arm is won at `b`. */
  function WonAt(a: nat, b: nat): World {
    Armed(a).(now := b, armed := None, uses := [Use("m", "t", FromArm(0), b)])
  }

  /** And the marker is left at `c`. */
  function LeftAt(a: nat, b: nat, c: nat): World {
    WonAt(a, b).(now := c, markers := [Marker("m", "t", c, 0)], sent := [Sent("m", "t", 0, c)])
  }

  /** A dispatch peeks it at `d`. */
  function PeekedAt(a: nat, b: nat, c: nat, d: nat): World {
    LeftAt(a, b, c).(now := d, sent := [Sent("m", "t", 0, c), Sent("m", "t", 0, d)])
  }

  lemma ArmingSteps(a: nat, latency: nat)
    requires a <= latency
    ensures var w := Quiet();
            var u := w.(turns := map[0 := Claiming("c", 0)], phrases := [0]);
            var v := u.(turns := map[0 := Arming(0)]);
            && Step(w, Says(0, "c")) == u && IsPrompt(w, Says(0, "c"), latency)
            && Step(u, TurnNext(0)) == v && IsPrompt(u, TurnNext(0), latency)
            && Step(v, Advance(a)) == v.(now := a) && Step(v.(now := a), TurnNext(0)) == Armed(a)
            && IsPrompt(v.(now := a), TurnNext(0), latency)
  {
    assert map[0 := Claiming("c", 0)] - {0} == map[] && map[0 := Arming(0)] - {0} == map[];
  }

  lemma ToArmed(a: nat, latency: nat) returns (es: seq<Event>)
    requires a <= latency
    ensures Leads(Quiet(), es, latency, Armed(a))
  {
    ArmingSteps(a, latency);
    var w := Quiet();
    var u := w.(turns := map[0 := Claiming("c", 0)], phrases := [0]);
    var v := u.(turns := map[0 := Arming(0)]);
    es := [];
    assert Leads(w, es, latency, w);
    hide Step, IsPrompt, Leads;
    es := Follow(w, es, latency, w, Says(0, "c"), u);
    es := Follow(w, es, latency, u, TurnNext(0), v);
    es := Follow(w, es, latency, v, Advance(a), v.(now := a));
    es := Follow(w, es, latency, v.(now := a), TurnNext(0), Armed(a));
  }

  lemma WinningSteps(a: nat, b: nat, latency: nat)
    requires a <= b < a + TTL
    ensures var w := Armed(a).(now := b);
            && Step(Armed(a), Advance(b - a)) == w && Step(w, Ask(0, "m", "t", false)) == Asking(w, 0, Peeking)
            && Step(Asking(w, 0, Peeking), CallNext(0)) == Asking(w, 0, Finding)
            && Step(Asking(w, 0, Finding), CallNext(0)) == Asking(w, 0, Disarming)
            && Step(Asking(w, 0, Disarming), CallNext(0)) == Asking(WonAt(a, b), 0, Marking(0))
            && forall st: Stage | !st.Marking? :: IsPrompt(Asking(w, 0, st), CallNext(0), latency)
  {
  }

  lemma ToWon(a: nat, b: nat, latency: nat) returns (es: seq<Event>)
    requires a <= b < a + TTL && a <= latency
    ensures Leads(Quiet(), es, latency, Asking(WonAt(a, b), 0, Marking(0)))
  {
    WinningSteps(a, b, latency);
    var w := Armed(a).(now := b);
    es := ToArmed(a, latency);
    assert IsPrompt(Armed(a), Advance(b - a), latency) && IsPrompt(w, Ask(0, "m", "t", false), latency);
    hide Step, IsPrompt, Leads;
    es := Follow(Quiet(), es, latency, Armed(a), Advance(b - a), w);
    es := Follow(Quiet(), es, latency, w, Ask(0, "m", "t", false), Asking(w, 0, Peeking));
    es := Follow(Quiet(), es, latency, Asking(w, 0, Peeking), CallNext(0), Asking(w, 0, Finding));
    es := Follow(Quiet(), es, latency, Asking(w, 0, Finding), CallNext(0), Asking(w, 0, Disarming));
    es := Follow(Quiet(), es, latency, Asking(w, 0, Disarming), CallNext(0), Asking(WonAt(a, b), 0, Marking(0)));
  }

  lemma LeavingSteps(a: nat, b: nat, c: nat, latency: nat)
    requires a <= b <= c <= b + latency
    ensures var w := Asking(WonAt(a, b), 0, Marking(0));
            && Step(w, Advance(c - b)) == w.(now := c) && Step(w.(now := c), CallNext(0)) == LeftAt(a, b, c)
            && IsPrompt(w.(now := c), CallNext(0), latency)
  {
    assert map[0 := Call(Marking(0), "m", "t", false)] - {0} == map[];
  }

  lemma PeekingSteps(a: nat, b: nat, c: nat, d: nat, latency: nat)
    requires a <= b <= c <= d < c + TTL
    ensures var u := LeftAt(a, b, c).(now := d);
            && Step(LeftAt(a, b, c), Advance(d - c)) == u && Step(u, Ask(1, "m", "t", false)) == Asking(u, 1, Peeking)
            && Step(Asking(u, 1, Peeking), CallNext(1)) == PeekedAt(a, b, c, d)
            && IsPrompt(Asking(u, 1, Peeking), CallNext(1), latency)
  {
    assert map[1 := Call(Peeking, "m", "t", false)] - {1} == map[];
  }

  lemma ToPeeked(a: nat, b: nat, c: nat, d: nat, latency: nat) returns (es: seq<Event>)
    requires a <= b < a + TTL && a <= latency && b <= c <= b + latency && c <= d < c + TTL
    ensures Leads(Quiet(), es, latency, PeekedAt(a, b, c, d))
  {
    LeavingSteps(a, b, c, latency);
    PeekingSteps(a, b, c, d, latency);
    var w, u := Asking(WonAt(a, b), 0, Marking(0)), LeftAt(a, b, c).(now := d);
    es := ToWon(a, b, latency);
    assert IsPrompt(w, Advance(c - b), latency) && IsPrompt(LeftAt(a, b, c), Advance(d - c), latency);
    assert IsPrompt(u, Ask(1, "m", "t", false), latency);
    hide Step, IsPrompt, Leads;
    es := Follow(Quiet(), es, latency, w, Advance(c - b), w.(now := c));
    es := Follow(Quiet(), es, latency, w.(now := c), CallNext(0), LeftAt(a, b, c));
    es := Follow(Quiet(), es, latency, LeftAt(a, b, c), Advance(d - c), u);
    es := Follow(Quiet(), es, latency, u, Ask(1, "m", "t", false), Asking(u, 1, Peeking));
    es := Follow(Quiet(), es, latency, Asking(u, 1, Peeking), CallNext(1), PeekedAt(a, b, c, d));
  }

  /** A run from nothing, of that latency, that lets a dispatch through on a phrase of that age. */
  ghost predicate LetsThrough(w: World, es: seq<Event>, latency: nat, age: int) {
    && IsRun(w, es) && IsStart(w) && AllPrompt(w, es, latency)
    && var v := After(w, es); exists i | 0 <= i < |v.sent| :: IsAuthorized(v, v.sent[i]) && Age(v, v.sent[i]) == age
  }

  lemma NoOlderPhrase(w: World, es: seq<Event>, latency: nat, age: int)
    requires LetsThrough(w, es, latency, age)
    ensures 0 <= age <= MaxAge(latency)
  {
    hide IsAuthorized, IsStart, Age, MaxAge;
    var v := After(w, es);
    var i :| 0 <= i < |v.sent| && IsAuthorized(v, v.sent[i]) && Age(v, v.sent[i]) == age;
    SensitiveDispatchesAreAuthorized(w, es, latency);
    assert AllInTime(v, latency);
  }

  lemma SomePhrase(latency: nat, age: nat) returns (es: seq<Event>)
    requires age <= MaxAge(latency)
    ensures LetsThrough(Quiet(), es, latency, age)
  {
    var a := Least(age, latency);
    var b := Least(age, a + TTL - 1);
    var c := Least(age, b + latency);
    es := ToPeeked(a, b, c, age, latency);
    var v := PeekedAt(a, b, c, age);
    assert IsAuthorized(v, v.sent[1]) && Age(v, v.sent[1]) == age;
  }

  /** With writes of a given latency, a phrase of a given age can let a dispatch through exactly if it is
      no older than twenty minutes and twice the latency, less two instants. */
  lemma OldestPhrase(latency: nat, age: int)
    ensures (exists w: World, es: seq<Event> :: LetsThrough(w, es, latency, age)) <==> 0 <= age <= MaxAge(latency)
  {
    hide LetsThrough;
    if 0 <= age <= MaxAge(latency) { var es := SomePhrase(latency, age); }
    forall w: World, es: seq<Event> | LetsThrough(w, es, latency, age) ensures 0 <= age <= MaxAge(latency) {
      NoOlderPhrase(w, es, latency, age);
    }
  }

  function Least(x: nat, y: nat): nat { if x < y then x else y }

  /** So the twenty minutes hold exactly if no write is late at all. */
  lemma TwentyMinutesHoldIff(latency: nat)
    ensures (forall w: World, es: seq<Event>, age: int | LetsThrough(w, es, latency, age) :: age < 20 * MINUTE) <==>
            latency == 0
  {
    hide LetsThrough;
    if latency == 0 {
      forall w: World, es: seq<Event>, age: int | LetsThrough(w, es, latency, age) ensures age < 20 * MINUTE {
        OldestPhrase(latency, age);
      }
    } else {
      OldestPhrase(latency, 20 * MINUTE);
      var w: World, es: seq<Event> :| LetsThrough(w, es, latency, 20 * MINUTE);
    }
  }

  // ----- twice is possible -----

  /** One refusal of email "a" is pending. */
  function RefusedOnce(): World {
    World(0, map["c" := Refusal("a", "t", 0)], [], None, [], map[], map[], [], [], [], [])
  }

  /** After the phrase: the confirmation of "a" is stored, and the arm is set as well. */
  function Confirmed(): World {
    World(0, map[], [Conf("a", "t", 0, false, 0)], Some(0), [], map[], map[], [0], [Arm(0, 0)], [], [])
  }

  /** "a" has been let through on the confirmation; the arm is still set. */
  function OneSent(): World {
    Confirmed().(confs := [Conf("a", "t", 0, true, 0)], markers := [Marker("a", "t", 0, 0)],
                 uses := [Use("a", "t", FromConf(0), 0)], sent := [Sent("a", "t", 0, 0)])
  }

  lemma Onward(w: World, es: seq<Event>, e: Event, u: World, v: World) returns (more: seq<Event>)
    requires IsRun(w, es) && After(w, es) == u && Enabled(u, e) && Step(u, e) == v
    ensures IsRun(w, more) && After(w, more) == v
  {
    RunExtends(w, es, e);
    more := es + [e];
  }

  lemma ConfirmingSteps()
    ensures var w := RefusedOnce();
            var u := w.(turns := map[0 := Claiming("c", 0)], phrases := [0]);
            var v := u.(turns := map[0 := Recording("a", "t", 0)], refusals := map[]);
            var x := v.(turns := map[0 := Arming(0)], confs := [Conf("a", "t", 0, false, 0)]);
            && Step(w, Says(0, "c")) == u && Step(u, TurnNext(0)) == v
            && Step(v, TurnNext(0)) == x && Step(x, TurnNext(0)) == Confirmed()
  {
    assert map["c" := Refusal("a", "t", 0)] - {"c"} == map[] && map[0 := Arming(0)] - {0} == map[];
  }

  lemma ToConfirmed() returns (es: seq<Event>)
    ensures IsRun(RefusedOnce(), es) && After(RefusedOnce(), es) == Confirmed()
  {
    var w := RefusedOnce();
    var u := w.(turns := map[0 := Claiming("c", 0)], phrases := [0]);
    var v := u.(turns := map[0 := Recording("a", "t", 0)], refusals := map[]);
    var x := v.(turns := map[0 := Arming(0)], confs := [Conf("a", "t", 0, false, 0)]);
    ConfirmingSteps();
    es := [];
    assert IsRun(w, es) && After(w, es) == w;
    hide Step, IsRun, After;
    es := Onward(w, es, Says(0, "c"), w, u);
    es := Onward(w, es, TurnNext(0), u, v);
    es := Onward(w, es, TurnNext(0), v, x);
    es := Onward(w, es, TurnNext(0), x, Confirmed());
  }

  function Calling(w: World, stage: Stage, email: string): World {
    w.(calls := map[0 := Call(stage, email, "t", false)])
  }

  function Used(): World {
    Confirmed().(confs := [Conf("a", "t", 0, true, 0)], uses := [Use("a", "t", FromConf(0), 0)])
  }

  function Disarmed(): World {
    OneSent().(armed := None, uses := [Use("a", "t", FromConf(0), 0), Use("b", "t", FromArm(0), 0)])
  }

  function BothSent(): World {
    Disarmed().(markers := [Marker("a", "t", 0, 0), Marker("b", "t", 0, 1)],
                sent := [Sent("a", "t", 0, 0), Sent("b", "t", 1, 0)])
  }

  lemma FirstFinds()
    ensures Step(Confirmed(), Ask(0, "a", "t", false)) == Calling(Confirmed(), Peeking, "a")
    ensures Step(Calling(Confirmed(), Peeking, "a"), CallNext(0)) == Calling(Confirmed(), Finding, "a")
    ensures Step(Calling(Confirmed(), Finding, "a"), CallNext(0)) == Calling(Confirmed(), Consuming(0, 0), "a")
  {
  }

  lemma OneSentSteps()
    ensures Step(Calling(Confirmed(), Consuming(0, 0), "a"), CallNext(0)) == Calling(Used(), Marking(0), "a")
    ensures Step(Calling(Used(), Marking(0), "a"), CallNext(0)) == OneSent()
  {
    assert map[0 := Call(Marking(0), "a", "t", false)] - {0} == map[];
  }

  lemma SecondFindsNothing()
    ensures Step(OneSent(), Ask(0, "b", "t", false)) == Calling(OneSent(), Peeking, "b")
    ensures Step(Calling(OneSent(), Peeking, "b"), CallNext(0)) == Calling(OneSent(), Finding, "b")
    ensures Step(Calling(OneSent(), Finding, "b"), CallNext(0)) == Calling(OneSent(), Disarming, "b")
  {
  }

  lemma BothSentSteps()
    ensures Step(Calling(OneSent(), Disarming, "b"), CallNext(0)) == Calling(Disarmed(), Marking(1), "b")
    ensures Step(Calling(Disarmed(), Marking(1), "b"), CallNext(0)) == BothSent()
  {
    assert map[0 := Call(Marking(1), "b", "t", false)] - {0} == map[];
  }

  lemma CallRuns(w: World, es: seq<Event>, email: string, u: World, a: World, b: World, c: World, d: World, v: World)
    returns (more: seq<Event>)
    requires IsRun(w, es) && After(w, es) == u && 0 !in u.calls && Step(u, Ask(0, email, "t", false)) == a
    requires 0 in a.calls && Step(a, CallNext(0)) == b && 0 in b.calls && Step(b, CallNext(0)) == c
    requires 0 in c.calls && Step(c, CallNext(0)) == d && 0 in d.calls && Step(d, CallNext(0)) == v
    ensures IsRun(w, more) && After(w, more) == v
  {
    hide Step, IsRun, After;
    more := Onward(w, es, Ask(0, email, "t", false), u, a);
    more := Onward(w, more, CallNext(0), a, b);
    more := Onward(w, more, CallNext(0), b, c);
    more := Onward(w, more, CallNext(0), c, d);
    more := Onward(w, more, CallNext(0), d, v);
  }

  /** One phrase, spoken about "a", authorizes "a" on its confirmation and then any other email "b"
      on the arm that is still set. */
  lemma OnePhraseTwoEmails() returns (es: seq<Event>)
    ensures IsStart(RefusedOnce()) && IsRun(RefusedOnce(), es)
    ensures var v := After(RefusedOnce(), es);
            |v.phrases| == 1 && |v.sent| == 2 && v.sent[0].email == "a" && v.sent[1].email == "b"
  {
    es := ToConfirmed();
    FirstFinds();
    OneSentSteps();
    SecondFindsNothing();
    BothSentSteps();
    hide Step, IsRun, After;
    es := CallRuns(RefusedOnce(), es, "a", Confirmed(),
                   Calling(Confirmed(), Peeking, "a"), Calling(Confirmed(), Finding, "a"),
                   Calling(Confirmed(), Consuming(0, 0), "a"), Calling(Used(), Marking(0), "a"), OneSent());
    es := CallRuns(RefusedOnce(), es, "b", OneSent(),
                   Calling(OneSent(), Peeking, "b"), Calling(OneSent(), Finding, "b"),
                   Calling(OneSent(), Disarming, "b"), Calling(Disarmed(), Marking(1), "b"), BothSent());
  }
}
