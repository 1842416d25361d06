/** `_request_with_retry`: one loop, two budgets. Backoff retries advance `attempt`; the one token
    refresh does not. */
module RetryLoop {
  import opened Actions

  datatype RetryAfter = Absent | Unreadable | Seconds(s: real)

  /** How one request ends. */
  datatype Answer = Timeout | Transport(name: string) | Response(status: int, retryAfter: RetryAfter)

  datatype Hook = NoHook | Refreshes | Raises

  datatype Error =
    | TimedOut | TransportFailed(name: string) | RetryExhausted(status: int)
    | ServerError(status: int) | ClientError(status: int) | Unexpected(status: int)

  datatype Result = Result(error: Option<Error>, retryCount: nat) {
    predicate Ok() { error.None? }
  }

  const MAX_RETRIES: nat := 3

  function Backoff(attempt: nat): (seconds: real) {
    if attempt == 0 then 1.0 else if attempt == 1 then 4.0 else 16.0
  }

  predicate IsSuccess(a: Answer) { a.Response? && 200 <= a.status < 300 }
  predicate IsThrottled(a: Answer) { a.Response? && (a.status == 429 || a.status == 503) }
  predicate IsServerError(a: Answer) { a.Response? && 500 <= a.status < 600 && a.status != 503 }
  predicate IsUnauthorized(a: Answer) { a.Response? && a.status == 401 }
  predicate IsLost(a: Answer) { a.Timeout? || a.Transport? }

  /** The wait after answer `a` when `attempt` backoffs have been made. */
  function Wait(a: Answer, attempt: nat): real {
    if IsThrottled(a) && a.retryAfter.Seconds? then a.retryAfter.s else Backoff(attempt)
  }

  /** The error the last answer ends in. */
  function FinalError(a: Answer): (e: Option<Error>)
    ensures e == Some(TimedOut) <==> a == Timeout
    ensures forall name :: e == Some(TransportFailed(name)) <==> a == Transport(name)
    ensures e.None? <==> a.Response? && 200 <= a.status <= 299
    ensures a.Response? && 400 <= a.status <= 499 && a.status != 429 ==> e == Some(ClientError(a.status))
    ensures a.Response? && a.status in {429, 503} ==> e == Some(RetryExhausted(a.status))
    ensures a.Response? && 500 <= a.status <= 599 && a.status != 503 ==> e == Some(ServerError(a.status))
    ensures a.Response? && !(200 <= a.status <= 299) && !(400 <= a.status <= 599) ==> e == Some(Unexpected(a.status))
  {
    if a.Timeout? then Some(TimedOut)
    else if a.Transport? then Some(TransportFailed(a.name))
    else if 200 <= a.status < 300 then None
    else if a.status == 429 || a.status == 503 then Some(RetryExhausted(a.status))
    else if 500 <= a.status < 600 then Some(ServerError(a.status))
    else if 400 <= a.status < 500 then Some(ClientError(a.status))
    else Some(Unexpected(a.status))
  }

  // ----- what is promised, by status and number -----

  predicate Is401(a: Answer) { a.Response? && a.status == 401 }

  /** How many of the first `n` requests were answered 401: the refreshes among them. */
  function Refreshed(answers: nat -> Answer, n: nat): nat {
    if n == 0 then 0 else Refreshed(answers, n - 1) + if Is401(answers(n - 1)) then 1 else 0
  }

  /** Three retries where nothing came back and on 429 and 503, one on any other 5xx, and the refresh. */
  predicate IsRetried(a: Answer, attempt: nat) {
    match a
    case Timeout => attempt < 3
    case Transport(_) => attempt < 3
    case Response(status, _) =>
      if status == 429 || status == 503 then attempt < 3
      else if 500 <= status <= 599 then attempt < 1
      else status == 401
  }

  /** The first `n` requests all led to another one, and at most one of them by a refresh. */
  predicate AllRetried(answers: nat -> Answer, n: nat) {
    && Refreshed(answers, n) <= 1
    && forall i: nat | i < n :: Refreshed(answers, i) <= i && IsRetried(answers(i), i - Refreshed(answers, i))
  }

  /** Nothing more may follow the last answer. */
  predicate IsFinal(a: Answer, attempt: nat, refreshed: nat, hook: Hook) {
    IsRetried(a, attempt) ==> Is401(a) && (hook != Refreshes || refreshed == 1)
  }

  /** The wait before retry number `j`, counted from 0, after answer `a`: what a 429 or 503 asks for, and
      otherwise one second, four, and sixteen; so one after any other 5xx, which is retried first or not. */
  predicate IsDue(wait: real, a: Answer, j: nat) {
    && (if a.Response? && a.status in {429, 503} && a.retryAfter.Seconds? then wait == a.retryAfter.s
        else (j == 0 ==> wait == 1.0) && (j == 1 ==> wait == 4.0) && (j == 2 ==> wait == 16.0))
    && (a.Response? && 500 <= a.status <= 599 && a.status != 503 ==> wait == 1.0)
  }

  /** Every retry but the refreshes waits its due. */
  predicate IsPaced(answers: nat -> Answer, n: nat, waits: seq<real>) {
    forall i: nat | i < n && !Is401(answers(i)) ::
      var j := i - Refreshed(answers, i);
      0 <= j < |waits| && IsDue(waits[j], answers(i), j)
  }

  function Sum(waits: seq<real>): real {
    if waits == [] then 0.0 else Sum(waits[..|waits| - 1]) + waits[|waits| - 1]
  }

  /** No server asks for a wait of its own. */
  predicate IsUnhinted(answers: nat -> Answer, n: nat) {
    forall i: nat | i < n :: answers(i).Response? ==> !answers(i).retryAfter.Seconds?
  }

  predicate IsSchedule(waits: seq<real>) {
    forall k: nat | k < |waits| :: waits[k] == Backoff(k)
  }

  lemma RetriedOnce(answers: nat -> Answer, n: nat, attempt: nat)
    requires AllRetried(answers, n) && attempt == n - Refreshed(answers, n) && IsRetried(answers(n), attempt)
    requires Is401(answers(n)) ==> Refreshed(answers, n) == 0
    ensures AllRetried(answers, n + 1)
    ensures Refreshed(answers, n + 1) == Refreshed(answers, n) + if Is401(answers(n)) then 1 else 0
  {
  }

  lemma WaitedOnce(answers: nat -> Answer, n: nat, waits: seq<real>, wait: real)
    requires IsUnhinted(answers, n) ==> IsSchedule(waits)
    requires wait == Wait(answers(n), |waits|)
    ensures IsUnhinted(answers, n + 1) ==> IsSchedule(waits + [wait])
  {
    if IsUnhinted(answers, n + 1) { assert IsUnhinted(answers, n); }
  }

  lemma PacedOnce(answers: nat -> Answer, n: nat, waits: seq<real>, wait: real)
    requires IsPaced(answers, n, waits) && |waits| == n - Refreshed(answers, n) < 3
    requires IsRetried(answers(n), |waits|) && wait == Wait(answers(n), |waits|)
    ensures IsPaced(answers, n + 1, waits + [wait])
  {
    hide Refreshed;
  }

  lemma RefreshedOnce(answers: nat -> Answer, n: nat, waits: seq<real>)
    requires IsPaced(answers, n, waits) && Is401(answers(n))
    ensures IsPaced(answers, n + 1, waits)
  {
    hide Refreshed, IsDue;
  }

  lemma NothingYet(answers: nat -> Answer)
    ensures AllRetried(answers, 0) && Refreshed(answers, 0) == 0 && IsSchedule([]) && IsPaced(answers, 0, [])
  {
  }

  lemma CountsOne(answers: nat -> Answer, n: nat)
    ensures Refreshed(answers, n + 1) == Refreshed(answers, n) + if Is401(answers(n)) then 1 else 0
  {
  }

  lemma Unhinted(answers: nat -> Answer, n: nat)
    ensures IsUnhinted(answers, n + 1) ==> IsUnhinted(answers, n)
  {
  }

  /** Whatever the answers: at most five requests and one refresh; a refresh takes no backoff slot; the
      retry count is the requests less the first and less the refreshes that worked; every wait is what its
      answer asks for or the schedule says; the response comes back exactly on success; and the loop neither
      gives up early nor goes on late. */
  method RequestWithRetry(answers: nat -> Answer, hook: Hook)
    returns (r: Result, response: Option<Answer>, requests: nat, calls: nat, waits: seq<real>)
    ensures 1 <= requests <= 5 && calls <= 1 && r.retryCount <= 3
    ensures r.retryCount == requests - 1 - (if hook.Refreshes? then calls else 0)
    ensures AllRetried(answers, requests - 1)
    ensures var last := answers(requests - 1);
            && r.error == FinalError(last) && IsFinal(last, r.retryCount, Refreshed(answers, requests - 1), hook)
            && (calls == 1 <==> hook != NoHook && Refreshed(answers, requests) > 0)
            && (r.Ok() <==> response.Some?) && (r.Ok() ==> response == Some(last))
    ensures |waits| == r.retryCount && IsPaced(answers, requests - 1, waits)
    ensures IsUnhinted(answers, requests) ==> Sum(waits) == [0.0, 1.0, 5.0, 21.0][r.retryCount]
  {
    hide Sum, AllRetried, IsUnhinted, IsSchedule, Refreshed, IsPaced, Wait;
    NothingYet(answers);
    var used, attempt := false, 0;
    requests, calls, waits := 0, 0, [];
    while true
      invariant attempt <= MAX_RETRIES && |waits| == attempt
      invariant requests == attempt + calls && calls == (if used then 1 else 0) && (used ==> hook.Refreshes?)
      invariant AllRetried(answers, requests) && Refreshed(answers, requests) == calls
      invariant IsPaced(answers, requests, waits)
      invariant IsUnhinted(answers, requests) ==> IsSchedule(waits)
      decreases MAX_RETRIES - attempt, if used then 0 else 1
    {
      var a := answers(requests);
      Unhinted(answers, requests);
      if IsRetried(a, attempt) && (Is401(a) ==> !used) { RetriedOnce(answers, requests, attempt); }
      if IsRetried(a, attempt) && !Is401(a) { PacedOnce(answers, requests, waits, Wait(a, attempt)); }
      if Is401(a) { RefreshedOnce(answers, requests, waits); }
      WaitedOnce(answers, requests, waits, Wait(a, attempt));
      CountsOne(answers, requests);
      requests := requests + 1;
      var result := Result(FinalError(a), attempt);
      if IsLost(a) || IsThrottled(a) {
        if attempt < MAX_RETRIES {
          waits := waits + [Wait(a, attempt)];
          attempt := attempt + 1;
          continue;
        }
        TotalWait(waits);
        return result, None, requests, calls, waits;
      }
      TotalWait(waits);
      if IsSuccess(a) { return result, Some(a), requests, calls, waits; }
      if IsServerError(a) {
        if attempt < 1 {
          FirstWait(a);
          waits := waits + [Backoff(0)];
          attempt := attempt + 1;
          continue;
        }
        return result, None, requests, calls, waits;
      }
      if IsUnauthorized(a) && hook != NoHook && !used {
        calls := calls + 1;
        if hook.Raises? { return result, None, requests, calls, waits; }
        used := true;
        continue;
      }
      return result, None, requests, calls, waits;
    }
  }

  lemma FirstWait(a: Answer)
    requires IsServerError(a)
    ensures Wait(a, 0) == Backoff(0)
  {
  }

  lemma TotalWait(waits: seq<real>)
    requires |waits| <= MAX_RETRIES
    ensures IsSchedule(waits) ==> Sum(waits) == [0.0, 1.0, 5.0, 21.0][|waits|]
  {
    if IsSchedule(waits) { BackoffsAddUp(waits); }
  }

  lemma {:induction false} BackoffsAddUp(waits: seq<real>)
    requires |waits| <= MAX_RETRIES && IsSchedule(waits)
    ensures Sum(waits) == [0.0, 1.0, 5.0, 21.0][|waits|]
  {
    if waits != [] { BackoffsAddUp(waits[..|waits| - 1]); }
  }
}
