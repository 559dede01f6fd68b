/** The retry loop around an HTTP request. */
module Retryer {
  import opened Sums

  const MAX_RETRY_COUNT: nat := 5

  /** What the HTTP client answers to one attempt: every error it returns is a
      net.Error, which either reports a timeout or not. */
  datatype Answer = Timeout | OtherError | Response(status: int)

  datatype Outcome =
    | Got(attempt: nat)         // the response of that attempt
    | RewindFailed(attempt: nat)
    | NetFailed(attempt: nat)
    | GaveUp(last: Answer)

  /** bodyPos is the position from which the body of the request is read. */
  datatype Event = Request(attempt: nat, bodyPos: nat) | Close(attempt: nat) | Sleep(millis: nat)

  predicate ShouldRetry(status: int) {
    status == 429 || 500 <= status <= 599
  }

  predicate Retryable(a: Answer) {
    a.Timeout? || (a.Response? && ShouldRetry(a.status))
  }

  function Pow2(n: nat): nat {
    if n == 0 then 1 else 2 * Pow2(n - 1)
  }

  function WaitTime(retryCount: nat): nat {
    Pow2(retryCount) * 100
  }

  // ------------------------------------------------------- reading a log

  function IsRequest(e: Event): int {
    if e.Request? then 1 else 0
  }

  function Millis(e: Event): int {
    if e.Sleep? then e.millis else 0
  }

  function IsClose(i: nat): Event -> int {
    (e: Event) => if e == Close(i) then 1 else 0
  }

  ghost function Requests(log: seq<Event>): int {
    Sum(log, IsRequest)
  }

  ghost function Slept(log: seq<Event>): int {
    Sum(log, Millis)
  }

  /** The attempts 0, 1, ... are made in this order, each from the beginning of
      the body if there is one. */
  ghost predicate InOrder(hasBody: bool, log: seq<Event>) {
    forall i | 0 <= i < |log| && log[i].Request? ::
      log[i].attempt == Requests(log[..i]) && (hasBody ==> log[i].bodyPos == 0)
  }

  /** The response of each attempt below n that is retried is closed once, no
      other response is. */
  ghost predicate ClosedOnce(log: seq<Event>, answers: seq<Answer>, n: nat)
    requires n <= |answers|
  {
    forall i: nat :: Sum(log, IsClose(i)) == if i < n && answers[i].Response? && Retryable(answers[i]) then 1 else 0
  }

  /** The log after `requests` attempts, with the responses below `closed` dealt
      with and `waits` pauses made. */
  ghost predicate LogOk(hasBody: bool, log: seq<Event>, answers: seq<Answer>, requests: nat, closed: nat, waits: nat)
    requires closed <= |answers|
  {
    && InOrder(hasBody, log) && Requests(log) == requests
    && ClosedOnce(log, answers, closed)
    && Slept(log) == 100 * (Pow2(waits) - 1)
  }

  lemma Append(hasBody: bool, log: seq<Event>, e: Event)
    requires InOrder(hasBody, log)
    requires e.Request? ==> e.attempt == Requests(log) && (hasBody ==> e.bodyPos == 0)
    ensures InOrder(hasBody, log + [e])
    ensures Requests(log + [e]) == Requests(log) + IsRequest(e)
    ensures Slept(log + [e]) == Slept(log) + Millis(e)
    ensures forall i: nat :: Sum(log + [e], IsClose(i)) == Sum(log, IsClose(i)) + if e == Close(i) then 1 else 0
  {
    SumAppend(log, e, IsRequest);
    SumAppend(log, e, Millis);
    forall i: nat
      ensures Sum(log + [e], IsClose(i)) == Sum(log, IsClose(i)) + if e == Close(i) then 1 else 0
    {
      SumAppend(log, e, IsClose(i));
    }
    var longer := log + [e];
    forall i | 0 <= i < |longer| && longer[i].Request?
      ensures longer[i].attempt == Requests(longer[..i]) && (hasBody ==> longer[i].bodyPos == 0)
    {
      assert longer[..i] == log[..i];
      assert log[..|log|] == log;
    }
  }

  lemma AfterRequest(hasBody: bool, log: seq<Event>, answers: seq<Answer>, n: nat, pos: nat)
    requires n < |answers| && LogOk(hasBody, log, answers, n, n, n) && (hasBody ==> pos == 0)
    ensures LogOk(hasBody, log + [Request(n, pos)], answers, n + 1, n, n)
  {
    Append(hasBody, log, Request(n, pos));
  }

  lemma AfterClose(hasBody: bool, log: seq<Event>, answers: seq<Answer>, n: nat)
    requires n < |answers| && LogOk(hasBody, log, answers, n + 1, n, n)
    requires answers[n].Response? && Retryable(answers[n])
    ensures LogOk(hasBody, log + [Close(n)], answers, n + 1, n + 1, n)
  {
    Append(hasBody, log, Close(n));
  }

  /** An attempt whose answer is no response to close. */
  lemma AfterNothing(hasBody: bool, log: seq<Event>, answers: seq<Answer>, n: nat)
    requires n < |answers| && LogOk(hasBody, log, answers, n + 1, n, n)
    requires !(answers[n].Response? && Retryable(answers[n]))
    ensures LogOk(hasBody, log, answers, n + 1, n + 1, n)
  {
  }

  lemma AfterSleep(hasBody: bool, log: seq<Event>, answers: seq<Answer>, n: nat)
    requires n < |answers| && LogOk(hasBody, log, answers, n + 1, n + 1, n)
    ensures LogOk(hasBody, log + [Sleep(WaitTime(n))], answers, n + 1, n + 1, n + 1)
  {
    Append(hasBody, log, Sleep(WaitTime(n)));
  }

  predicate Retried(hasBody: bool, seeks: seq<bool>, answers: seq<Answer>, k: nat)
    requires k <= |seeks| && k <= |answers|
  {
    forall i | 0 <= i < k :: Retryable(answers[i]) && (hasBody ==> seeks[i])
  }

  /** What the loop guarantees: the first answer that is not retryable decides,
      and only `limit` retryable answers in a row make it give up. */
  ghost predicate Decided(hasBody: bool, seeks: seq<bool>, answers: seq<Answer>, limit: nat, outcome: Outcome)
    requires limit <= |seeks| && limit <= |answers| && 1 <= limit
  {
    match outcome
    case Got(k) =>
      && k < limit && answers[k].Response? && !ShouldRetry(answers[k].status)
      && (hasBody ==> seeks[k]) && Retried(hasBody, seeks, answers, k)
    case NetFailed(k) =>
      k < limit && answers[k] == OtherError && (hasBody ==> seeks[k]) && Retried(hasBody, seeks, answers, k)
    case RewindFailed(k) =>
      k < limit && hasBody && !seeks[k] && Retried(hasBody, seeks, answers, k)
    case GaveUp(last) =>
      Retried(hasBody, seeks, answers, limit) && last == answers[limit - 1]
  }

  /** The attempts made and the pauses between them, by how the loop ended. */
  function Attempts(outcome: Outcome, limit: nat): nat {
    match outcome
    case Got(k) => k + 1
    case NetFailed(k) => k + 1
    case RewindFailed(k) => k
    case GaveUp(_) => limit
  }

  function Waits(outcome: Outcome, limit: nat): nat
    requires 1 <= limit
  {
    if outcome.GaveUp? then limit - 1 else outcome.attempt
  }

  // ---------------------------------------------------------- the whole log

  /** What the environment does at each attempt: whether the body can be rewound,
      what the client answers and up to where it has read the body.  start is
      where the body is before the first attempt. */
  datatype Env = Env(hasBody: bool, start: nat, seeks: seq<bool>, answers: seq<Answer>, consumed: seq<nat>) {
    predicate Covers(limit: nat) {
      limit <= |seeks| && limit <= |answers| && limit <= |consumed|
    }

    /** The position from which attempt n reads. */
    function Position(n: nat): nat
      requires n <= |consumed|
    {
      if hasBody then 0 else if n == 0 then start else consumed[n - 1]
    }
  }

  /** Attempt n up to its answer: the response is closed if it is retried. */
  function TurnLog(env: Env, n: nat): seq<Event>
    requires env.Covers(n + 1)
  {
    var a := env.answers[n];
    [Request(n, env.Position(n))] + if a.Response? && Retryable(a) then [Close(n)] else []
  }

  /** n attempts that are retried, each followed by its pause. */
  function TurnsLog(env: Env, n: nat): seq<Event>
    requires env.Covers(n)
  {
    if n == 0 then [] else TurnsLog(env, n - 1) + TurnLog(env, n - 1) + [Sleep(WaitTime(n - 1))]
  }

  /** Everything done up to the outcome, in its order. */
  function FullLog(env: Env, limit: nat, outcome: Outcome): seq<Event>
    requires 1 <= limit && env.Covers(limit) && (!outcome.GaveUp? ==> outcome.attempt < limit)
  {
    match outcome
    case Got(k) => TurnsLog(env, k) + TurnLog(env, k)
    case NetFailed(k) => TurnsLog(env, k) + TurnLog(env, k)
    case RewindFailed(k) => TurnsLog(env, k)
    case GaveUp(_) => TurnsLog(env, limit - 1) + TurnLog(env, limit - 1)
  }

  lemma TurnOk(env: Env, log: seq<Event>, n: nat)
    requires env.Covers(n + 1) && LogOk(env.hasBody, log, env.answers, n, n, n)
    ensures LogOk(env.hasBody, log + TurnLog(env, n), env.answers, n + 1, n + 1, n)
  {
    var request := Request(n, env.Position(n));
    AfterRequest(env.hasBody, log, env.answers, n, env.Position(n));
    if env.answers[n].Response? && Retryable(env.answers[n]) {
      AfterClose(env.hasBody, log + [request], env.answers, n);
      assert log + TurnLog(env, n) == log + [request] + [Close(n)];
    } else {
      AfterNothing(env.hasBody, log + [request], env.answers, n);
      assert log + TurnLog(env, n) == log + [request];
    }
  }

  lemma PausedTurnOk(env: Env, log: seq<Event>, n: nat)
    requires env.Covers(n + 1) && LogOk(env.hasBody, log, env.answers, n, n, n)
    ensures LogOk(env.hasBody, log + TurnLog(env, n) + [Sleep(WaitTime(n))], env.answers, n + 1, n + 1, n + 1)
  {
    TurnOk(env, log, n);
    AfterSleep(env.hasBody, log + TurnLog(env, n), env.answers, n);
  }

  lemma {:induction false} TurnsOk(env: Env, n: nat)
    requires env.Covers(n)
    ensures LogOk(env.hasBody, TurnsLog(env, n), env.answers, n, n, n)
  {
    if n > 0 {
      TurnsOk(env, n - 1);
      PausedTurnOk(env, TurnsLog(env, n - 1), n - 1);
    }
  }

  /** The requests come in order and from the rewound body, each response that is
      retried is closed once, and the pauses add up. */
  lemma FullLogOk(env: Env, limit: nat, outcome: Outcome)
    requires 1 <= limit && env.Covers(limit) && (!outcome.GaveUp? ==> outcome.attempt < limit)
    ensures LogOk(env.hasBody, FullLog(env, limit, outcome), env.answers,
                  Attempts(outcome, limit), Attempts(outcome, limit), Waits(outcome, limit))
  {
    var k := Waits(outcome, limit);
    TurnsOk(env, k);
    if !outcome.RewindFailed? {
      TurnOk(env, TurnsLog(env, k), k);
    }
  }

  /** A response is closed directly after its request, and a pause comes directly
      after the end of an attempt. */
  predicate PairedAt(log: seq<Event>, i: nat)
    requires i < |log|
  {
    match log[i]
    case Request(_, _) => true
    case Close(n) => i > 0 && log[i - 1].Request? && log[i - 1].attempt == n
    case Sleep(_) => i > 0 && !log[i - 1].Sleep?
  }

  ghost predicate Paired(log: seq<Event>) {
    forall i | 0 <= i < |log| :: PairedAt(log, i)
  }

  lemma PairedSnoc(log: seq<Event>, e: Event)
    requires Paired(log)
    requires e.Close? ==> log != [] && log[|log| - 1].Request? && log[|log| - 1].attempt == e.attempt
    requires e.Sleep? ==> log != [] && !log[|log| - 1].Sleep?
    ensures Paired(log + [e])
  {
    var longer := log + [e];
    forall i | 0 <= i < |longer|
      ensures PairedAt(longer, i)
    {
      if i < |log| {
        assert PairedAt(log, i);
        assert longer[i] == log[i] && (i > 0 ==> longer[i - 1] == log[i - 1]);
      }
    }
  }

  lemma TurnPaired(env: Env, log: seq<Event>, n: nat)
    requires env.Covers(n + 1) && Paired(log)
    ensures Paired(log + TurnLog(env, n))
    ensures Paired(log + TurnLog(env, n) + [Sleep(WaitTime(n))])
  {
    var request := Request(n, env.Position(n));
    PairedSnoc(log, request);
    if env.answers[n].Response? && Retryable(env.answers[n]) {
      PairedSnoc(log + [request], Close(n));
      assert log + TurnLog(env, n) == log + [request] + [Close(n)];
    } else {
      assert log + TurnLog(env, n) == log + [request];
    }
    PairedSnoc(log + TurnLog(env, n), Sleep(WaitTime(n)));
  }

  lemma {:induction false} TurnsPaired(env: Env, n: nat)
    requires env.Covers(n)
    ensures Paired(TurnsLog(env, n))
  {
    if n > 0 {
      TurnsPaired(env, n - 1);
      TurnPaired(env, TurnsLog(env, n - 1), n - 1);
    }
  }

  lemma FullLogPaired(env: Env, limit: nat, outcome: Outcome)
    requires 1 <= limit && env.Covers(limit) && (!outcome.GaveUp? ==> outcome.attempt < limit)
    ensures Paired(FullLog(env, limit, outcome))
  {
    var k := Waits(outcome, limit);
    TurnsPaired(env, k);
    TurnPaired(env, TurnsLog(env, k), k);
  }

  // ---------------------------------------------------------------- the loop

  datatype Verdict = Done(outcome: Outcome) | Again

  /** One turn of the loop up to the point where it counts the attempt. */
  method Attempt(env: Env, bodyPos: nat, n: nat) returns (verdict: Verdict, events: seq<Event>)
    requires env.Covers(n + 1) && (!env.hasBody ==> bodyPos == env.Position(n))
    ensures verdict == if env.hasBody && !env.seeks[n] then Done(RewindFailed(n))
                       else if Retryable(env.answers[n]) then Again
                       else if env.answers[n] == OtherError then Done(NetFailed(n)) else Done(Got(n))
    ensures events == if verdict == Done(RewindFailed(n)) then [] else TurnLog(env, n)
  {
    var pos := bodyPos;
    if env.hasBody {
      if !env.seeks[n] {
        return Done(RewindFailed(n)), [];
      }
      pos := 0;
    }
    events := [Request(n, pos)];
    var answer := env.answers[n];
    if answer.Response? && ShouldRetry(answer.status) {
      events := events + [Close(n)];
      verdict := Again;
    } else {
      verdict := match answer
                 case Timeout => Again
                 case OtherError => Done(NetFailed(n))
                 case Response(_) => Done(Got(n));
    }
  }

  /** DoWithExponentialBackoff for any limit. */
  method DoWithExponentialBackoff(env: Env, limit: nat) returns (outcome: Outcome, log: seq<Event>)
    requires 1 <= limit && env.Covers(limit)
    ensures Decided(env.hasBody, env.seeks, env.answers, limit, outcome)
    ensures Attempts(outcome, limit) <= limit
    ensures log == FullLog(env, limit, outcome)
  {
    log := [];
    var pos := env.start;
    var retryCount := 0;
    while true
      invariant retryCount < limit
      invariant Retried(env.hasBody, env.seeks, env.answers, retryCount)
      invariant !env.hasBody ==> pos == env.Position(retryCount)
      invariant log == TurnsLog(env, retryCount)
      decreases limit - retryCount
    {
      var verdict, events := Attempt(env, pos, retryCount);
      log := log + events;
      if verdict.Done? {
        return verdict.outcome, log;
      }
      pos := env.consumed[retryCount];
      retryCount := retryCount + 1;
      if retryCount == limit {
        outcome := GaveUp(env.answers[limit - 1]);
        return;
      }
      log := log + [Sleep(WaitTime(retryCount - 1))];
    }
  }

  /** What decides: a response is returned exactly if its status is neither 429 nor
      within 500 to 599, and each attempt before the deciding one ended in a timeout
      or in such a status. */
  lemma DecidedMeans(env: Env, limit: nat, outcome: Outcome)
    requires 1 <= limit && env.Covers(limit) && Decided(env.hasBody, env.seeks, env.answers, limit, outcome)
    ensures outcome.Got? ==>
      && env.answers[outcome.attempt].Response?
      && var status := env.answers[outcome.attempt].status; status != 429 && !(500 <= status <= 599)
    ensures outcome.NetFailed? ==> env.answers[outcome.attempt] == OtherError
    ensures forall i | 0 <= i < if outcome.GaveUp? then limit else outcome.attempt ::
      match env.answers[i]
      case Timeout => true
      case OtherError => false
      case Response(status) => status == 429 || 500 <= status <= 599
  {
    forall i | 0 <= i < if outcome.GaveUp? then limit else outcome.attempt
      ensures Retryable(env.answers[i])
    {
    }
  }

  /** The outcome is determined by the environment. */
  lemma DecidedUnique(hasBody: bool, seeks: seq<bool>, answers: seq<Answer>, limit: nat, a: Outcome, b: Outcome)
    requires 1 <= limit && limit <= |seeks| && limit <= |answers|
    requires Decided(hasBody, seeks, answers, limit, a) && Decided(hasBody, seeks, answers, limit, b)
    ensures a == b
  {
  }

  lemma {:induction false} Pow2Monotone(m: nat, n: nat)
    requires m <= n
    ensures Pow2(m) <= Pow2(n)
  {
    if m < n {
      Pow2Monotone(m, n - 1);
    }
  }

  /** The single pauses of the program, in milliseconds. */
  lemma Pauses()
    ensures WaitTime(0) == 100 && WaitTime(1) == 200 && WaitTime(2) == 400 && WaitTime(3) == 800
    ensures MAX_RETRY_COUNT == 5
  {
    assert Pow2(3) == 8;
  }

  /** With the limit of the program the loop sleeps for 1.5 seconds at most. */
  lemma LongestWait(k: nat)
    requires 1 <= k <= 5
    ensures 100 * (Pow2(k - 1) - 1) <= 1500
  {
    assert Pow2(4) == 16;
    Pow2Monotone(k - 1, 4);
  }
}
