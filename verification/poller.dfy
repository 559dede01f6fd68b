/** The poller as an object: what one poll does to a batch of messages, and how
    it is started, stopped and refreshed. */
module Pollers {
  import opened Sums
  import opened Tokens

  datatype SubmitAnswer = Accepted | Refused | Failed

  /** Effects of a poller.  Messages of a batch are named by their position. */
  datatype Event =
    | Receive(max: int)
    | Offer(i: nat, answer: SubmitAnswer)
    | Release(i: nat, ok: bool)

  /** What the queue answers to a receive. */
  datatype Received = Error | Batch(size: nat)

  // ------------------------------------------------------------ the batch

  /** The first submission that fails with an error, or the length. */
  function FirstFailure(answers: seq<SubmitAnswer>): (n: nat)
    ensures n <= |answers|
    ensures forall i | 0 <= i < n :: answers[i] != Failed
    ensures n < |answers| ==> answers[n] == Failed
  {
    if answers == [] || answers[0] == Failed then 0 else 1 + FirstFailure(answers[1..])
  }

  /** Message i is offered, and released at once if it is refused. */
  function OfferEvents(answers: seq<SubmitAnswer>, releases: seq<bool>, i: nat): seq<Event>
    requires i < |answers| && i < |releases|
  {
    if answers[i] == Refused then [Offer(i, Refused), Release(i, releases[i])] else [Offer(i, answers[i])]
  }

  function Offers(answers: seq<SubmitAnswer>, releases: seq<bool>, n: nat): seq<Event>
    requires n <= |answers| && n <= |releases|
  {
    if n == 0 then [] else Offers(answers, releases, n - 1) + OfferEvents(answers, releases, n - 1)
  }

  /** Releases of the messages from `from` up to n. */
  function Releases(releases: seq<bool>, from: nat, n: nat): seq<Event>
    requires from <= n <= |releases|
  {
    if n == from then [] else Releases(releases, from, n - 1) + [Release(n - 1, releases[n - 1])]
  }

  function BatchEvents(answers: seq<SubmitAnswer>, releases: seq<bool>): seq<Event>
    requires |answers| == |releases|
  {
    var f := FirstFailure(answers);
    if f == |answers| then Offers(answers, releases, f)
    else Offers(answers, releases, f) + ([Offer(f, Failed)] + Releases(releases, f, |answers|))
  }

  lemma BatchFrom(answers: seq<SubmitAnswer>, releases: seq<bool>, i: nat)
    requires |answers| == |releases| && i <= |answers| && i <= FirstFailure(answers)
    ensures i < |answers| && answers[i] == Failed ==>
      && i == FirstFailure(answers)
      && BatchEvents(answers, releases) ==
           Offers(answers, releases, i) + ([Offer(i, Failed)] + Releases(releases, i, |answers|))
    ensures i < |answers| && answers[i] != Failed ==> i + 1 <= FirstFailure(answers)
    ensures i == |answers| ==> BatchEvents(answers, releases) == Offers(answers, releases, i)
  {
  }

  function IsRelease(i: nat): Event -> int {
    (e: Event) => if e.Release? && e.i == i then 1 else 0
  }

  function IsOffer(i: nat): Event -> int {
    (e: Event) => if e.Offer? && e.i == i then 1 else 0
  }

  function IsTaken(i: nat): Event -> int {
    (e: Event) => if e == Offer(i, Accepted) then 1 else 0
  }

  /** How often an event of a kind occurs. */
  ghost function Times(events: seq<Event>, kind: Event -> int): int {
    Sum(events, kind)
  }

  lemma One(e: Event, kind: Event -> int)
    ensures Sum([e], kind) == kind(e)
  {
    SumAppend([], e, kind);
    assert [] + [e] == [e];
  }

  /** How often an event of a kind occurs in the offer of message k. */
  function Weight(kind: Event -> int, answers: seq<SubmitAnswer>, releases: seq<bool>, k: nat): int
    requires k < |answers| && k < |releases|
  {
    kind(Offer(k, answers[k])) + if answers[k] == Refused then kind(Release(k, releases[k])) else 0
  }

  lemma OfferCount(answers: seq<SubmitAnswer>, releases: seq<bool>, k: nat, kind: Event -> int)
    requires k < |answers| && k < |releases|
    ensures Times(OfferEvents(answers, releases, k), kind) == Weight(kind, answers, releases, k)
  {
    One(Offer(k, answers[k]), kind);
    if answers[k] == Refused {
      SumAppend([Offer(k, Refused)], Release(k, releases[k]), kind);
      assert OfferEvents(answers, releases, k) == [Offer(k, Refused)] + [Release(k, releases[k])];
    }
  }

  lemma OfferAdds(answers: seq<SubmitAnswer>, releases: seq<bool>, n: nat, kind: Event -> int)
    requires 0 < n <= |answers| && n <= |releases|
    ensures Times(Offers(answers, releases, n), kind) ==
      Times(Offers(answers, releases, n - 1), kind) + Weight(kind, answers, releases, n - 1)
  {
    OfferCount(answers, releases, n - 1, kind);
    SumConcat(Offers(answers, releases, n - 1), OfferEvents(answers, releases, n - 1), kind);
  }

  /** A kind of events about message i alone, which its offer has x times. */
  lemma {:induction false} OffersCount(
    answers: seq<SubmitAnswer>, releases: seq<bool>, n: nat, i: nat, kind: Event -> int, x: int)
    requires n <= |answers| && n <= |releases|
    requires forall k | 0 <= k < n :: Weight(kind, answers, releases, k) == if k == i then x else 0
    ensures Times(Offers(answers, releases, n), kind) == if i < n then x else 0
  {
    if n > 0 {
      OffersCount(answers, releases, n - 1, i, kind, x);
      OfferAdds(answers, releases, n, kind);
      assert Weight(kind, answers, releases, n - 1) == if n - 1 == i then x else 0;
    }
  }

  /** The same for a release of its own, which has y of them. */
  lemma {:induction false} ReleasesCount(releases: seq<bool>, from: nat, n: nat, i: nat, kind: Event -> int, y: int)
    requires from <= n <= |releases|
    requires forall k: nat, ok :: kind(Release(k, ok)) == if k == i then y else 0
    ensures Times(Releases(releases, from, n), kind) == if from <= i < n then y else 0
  {
    if n > from {
      ReleasesCount(releases, from, n - 1, i, kind, y);
      SumAppend(Releases(releases, from, n - 1), Release(n - 1, releases[n - 1]), kind);
    }
  }

  lemma FailureAdds(answers: seq<SubmitAnswer>, releases: seq<bool>, kind: Event -> int)
    requires |answers| == |releases| && FirstFailure(answers) < |answers|
    ensures var f := FirstFailure(answers);
      Times(BatchEvents(answers, releases), kind) ==
        Times(Offers(answers, releases, f), kind)
        + kind(Offer(f, Failed)) + Times(Releases(releases, f, |answers|), kind)
  {
    var f := FirstFailure(answers);
    One(Offer(f, Failed), kind);
    SumConcat([Offer(f, Failed)], Releases(releases, f, |answers|), kind);
    SumConcat(Offers(answers, releases, f), [Offer(f, Failed)] + Releases(releases, f, |answers|), kind);
  }

  /** A message has x events of a kind if it comes before the first error; from
      the error on it has y, and z for the failed offer itself. */
  lemma BatchCount(
    answers: seq<SubmitAnswer>, releases: seq<bool>, i: nat, kind: Event -> int, x: int, y: int, z: int)
    requires |answers| == |releases| && i < |answers|
    requires forall k | 0 <= k < |answers| :: Weight(kind, answers, releases, k) == if k == i then x else 0
    requires forall k: nat, ok :: kind(Release(k, ok)) == if k == i then y else 0
    requires forall k: nat :: kind(Offer(k, Failed)) == if k == i then z else 0
    ensures var f := FirstFailure(answers);
      Times(BatchEvents(answers, releases), kind) == if i < f then x else if i == f then y + z else y
  {
    var f := FirstFailure(answers);
    OffersCount(answers, releases, f, i, kind, x);
    if f < |answers| {
      ReleasesCount(releases, f, |answers|, i, kind, y);
      FailureAdds(answers, releases, kind);
    }
  }

  lemma TakenCount(answers: seq<SubmitAnswer>, releases: seq<bool>, i: nat)
    requires |answers| == |releases| && i < |answers|
    ensures Times(BatchEvents(answers, releases), IsTaken(i)) ==
      if i < FirstFailure(answers) && answers[i] == Accepted then 1 else 0
  {
    BatchCount(answers, releases, i, IsTaken(i), if answers[i] == Accepted then 1 else 0, 0, 0);
  }

  lemma ReleasedCount(answers: seq<SubmitAnswer>, releases: seq<bool>, i: nat)
    requires |answers| == |releases| && i < |answers|
    ensures Times(BatchEvents(answers, releases), IsRelease(i)) ==
      if i < FirstFailure(answers) && answers[i] == Accepted then 0 else 1
  {
    BatchCount(answers, releases, i, IsRelease(i), if answers[i] == Refused then 1 else 0, 1, 0);
  }

  /** Every message of the batch is either taken by the pool or released, never
      both and never twice.  It is taken exactly if it is accepted before the
      first error; from the error on the whole rest is released, whether or not
      the releases succeed. */
  lemma BatchPartition(answers: seq<SubmitAnswer>, releases: seq<bool>, i: nat)
    requires |answers| == |releases| && i < |answers|
    ensures var events := BatchEvents(answers, releases);
            var taken := i < FirstFailure(answers) && answers[i] == Accepted;
      && Times(events, IsTaken(i)) == (if taken then 1 else 0)
      && Times(events, IsRelease(i)) == (if taken then 0 else 1)
      && Times(events, IsOffer(i)) == (if i <= FirstFailure(answers) then 1 else 0)
  {
    TakenCount(answers, releases, i);
    ReleasedCount(answers, releases, i);
    BatchCount(answers, releases, i, IsOffer(i), 1, 0, 1);
  }

  /** The events carry the answers that were given for their messages. */
  ghost predicate AnswersGiven(events: seq<Event>, answers: seq<SubmitAnswer>, releases: seq<bool>) {
    forall e | e in events ::
      match e
      case Receive(_) => false
      case Offer(i, answer) => i < |answers| && answers[i] == answer
      case Release(i, ok) => i < |releases| && releases[i] == ok
  }

  lemma {:induction false} OffersGiven(answers: seq<SubmitAnswer>, releases: seq<bool>, n: nat)
    requires n <= |answers| && n <= |releases|
    ensures AnswersGiven(Offers(answers, releases, n), answers, releases)
  {
    if n > 0 {
      OffersGiven(answers, releases, n - 1);
    }
  }

  lemma {:induction false} ReleasesGiven(answers: seq<SubmitAnswer>, releases: seq<bool>, from: nat, n: nat)
    requires from <= n <= |releases|
    ensures AnswersGiven(Releases(releases, from, n), answers, releases)
  {
    if n > from {
      ReleasesGiven(answers, releases, from, n - 1);
    }
  }

  /** Every offer and every release of a batch has the answer that the pool and the
      queue gave for that very message. */
  lemma BatchAnswers(answers: seq<SubmitAnswer>, releases: seq<bool>)
    requires |answers| == |releases|
    ensures AnswersGiven(BatchEvents(answers, releases), answers, releases)
  {
    var f := FirstFailure(answers);
    OffersGiven(answers, releases, f);
    if f < |answers| {
      ReleasesGiven(answers, releases, f, |answers|);
    }
  }

  /** The position an event is about. */
  function At(e: Event): int {
    match e
    case Receive(_) => -1
    case Offer(i, _) => i
    case Release(i, _) => i
  }

  ghost predicate Ordered(events: seq<Event>) {
    forall a, b | 0 <= a < b < |events| :: At(events[a]) <= At(events[b])
  }

  /** All events are about messages from `from` up to n. */
  ghost predicate Between(events: seq<Event>, from: int, n: int) {
    forall k | 0 <= k < |events| :: from <= At(events[k]) < n
  }

  lemma OrderedConcat(first: seq<Event>, second: seq<Event>, from: int, mid: int, n: int)
    requires Ordered(first) && Between(first, from, mid) && Ordered(second) && Between(second, mid, n)
    requires from <= mid <= n
    ensures Ordered(first + second) && Between(first + second, from, n)
  {
  }

  lemma OneOfferOrdered(answers: seq<SubmitAnswer>, releases: seq<bool>, k: nat)
    requires k < |answers| && k < |releases|
    ensures Ordered(OfferEvents(answers, releases, k)) && Between(OfferEvents(answers, releases, k), k, k + 1)
  {
  }

  lemma {:induction false} OffersOrdered(answers: seq<SubmitAnswer>, releases: seq<bool>, n: nat)
    requires n <= |answers| && n <= |releases|
    ensures Ordered(Offers(answers, releases, n)) && Between(Offers(answers, releases, n), 0, n)
  {
    if n > 0 {
      OffersOrdered(answers, releases, n - 1);
      OneOfferOrdered(answers, releases, n - 1);
      OrderedConcat(Offers(answers, releases, n - 1), OfferEvents(answers, releases, n - 1), 0, n - 1, n);
    }
  }

  lemma {:induction false} ReleasesOrdered(releases: seq<bool>, from: nat, n: nat)
    requires from <= n <= |releases|
    ensures Ordered(Releases(releases, from, n)) && Between(Releases(releases, from, n), from, n)
  {
    if n > from {
      ReleasesOrdered(releases, from, n - 1);
      OrderedConcat(Releases(releases, from, n - 1), [Release(n - 1, releases[n - 1])], from, n - 1, n);
    }
  }

  /** The failed offer and the releases after it. */
  lemma RestOrdered(releases: seq<bool>, f: nat, n: nat)
    requires f < n <= |releases|
    ensures Ordered([Offer(f, Failed)] + Releases(releases, f, n))
    ensures Between([Offer(f, Failed)] + Releases(releases, f, n), f, n)
  {
    ReleasesOrdered(releases, f, n);
  }

  /** The messages are dealt with in the order in which they were received. */
  lemma BatchOrdered(answers: seq<SubmitAnswer>, releases: seq<bool>)
    requires |answers| == |releases|
    ensures Ordered(BatchEvents(answers, releases))
  {
    var f := FirstFailure(answers);
    OffersOrdered(answers, releases, f);
    if f < |answers| {
      RestOrdered(releases, f, |answers|);
      var rest := [Offer(f, Failed)] + Releases(releases, f, |answers|);
      OrderedConcat(Offers(answers, releases, f), rest, 0, f, |answers|);
    }
  }

  // ------------------------------------------------------------ the object

  function Min(x: int, y: int): int {
    if x > y then y else x
  }

  datatype StopOutcome = Done | NotRunning | Panic

  class Poller {
    const url: Url
    const maxNumberOfMessages: int
    var role: AssumeRoleResult // the credentials of the queue provider
    var isRunning: bool
    var quitClosed: bool
    var wakeUpClosed: bool
    var events: seq<Event>
    ghost var starts: nat
    ghost var stops: nat

    /** Both channels stay closed from the first Stop on. */
    ghost predicate Valid()
      reads this
    {
      && stops <= starts
      && starts == stops + (if isRunning then 1 else 0)
      && (quitClosed <==> 1 <= stops) && (wakeUpClosed <==> 1 <= stops)
    }

    constructor (properties: Properties, maxNumberOfMessages: int)
      ensures url == properties.url && role == properties.assumeRoleResult
      ensures this.maxNumberOfMessages == maxNumberOfMessages
      ensures Valid() && !isRunning && starts == 0 && events == []
    {
      url := properties.url;
      this.maxNumberOfMessages := maxNumberOfMessages;
      role := properties.assumeRoleResult;
      isRunning, quitClosed, wakeUpClosed := false, false, false;
      events := [];
      starts, stops := 0, 0;
    }

    method Start() returns (failed: bool)
      requires Valid()
      modifies `isRunning, `starts
      ensures Valid() && isRunning
      ensures failed == old(isRunning)
      ensures starts == old(starts) + if failed then 0 else 1
    {
      if isRunning {
        return true;
      }
      isRunning := true;
      starts := starts + 1;
      return false;
    }

    /** Stop closes both channels and waits for the goroutine.  It fails exactly
        if the poller is not running, and panics exactly if the poller has been
        started again after a stop, since it closes quit twice then. */
    method Stop() returns (outcome: StopOutcome)
      requires Valid()
      modifies `isRunning, `quitClosed, `wakeUpClosed, `stops
      ensures Valid()
      ensures outcome == NotRunning <==> !old(isRunning)
      ensures outcome == Panic <==> old(isRunning) && 2 <= starts
      ensures outcome == Done <==> old(isRunning) && starts == 1
      ensures isRunning <==> outcome == Panic
      ensures stops == old(stops) + if outcome == Done then 1 else 0
    {
      if !isRunning {
        return NotRunning;
      }
      if quitClosed {
        return Panic;
      }
      quitClosed := true;
      wakeUpClosed := true;
      stops := stops + 1;
      isRunning := false;
      return Done;
    }

    /** sessionOk: whether a session with the new credentials can be created. */
    method RefreshClient(assumeRoleResult: AssumeRoleResult, sessionOk: bool) returns (failed: bool)
      modifies `role
      ensures failed == !sessionOk
      ensures role == if sessionOk then assumeRoleResult else old(role)
    {
      if !sessionOk {
        return true;
      }
      role := assumeRoleResult;
      return false;
    }

    /** Releases the messages from `from` up to n; a failing release does not
        keep the others from being released. */
    method TerminateMessageVisibility(releases: seq<bool>, from: nat, n: nat)
      requires from <= n <= |releases|
      modifies `events
      ensures events == old(events) + Releases(releases, from, n)
    {
      for i := from to n
        invariant events == old(events) + Releases(releases, from, i)
      {
        events := events + [Release(i, releases[i])];
      }
    }

    method OfferMessage(i: nat, answers: seq<SubmitAnswer>, releases: seq<bool>)
      requires i < |answers| == |releases| && answers[i] != Failed
      modifies `events
      ensures events == old(events) + OfferEvents(answers, releases, i)
    {
      events := events + [Offer(i, answers[i])];
      if answers[i] == Refused {
        TerminateMessageVisibility(releases, i, i + 1);
        assert Releases(releases, i, i + 1) == [Release(i, releases[i])];
      }
    }

    /** An error of the pool ends the loop; the rest of the batch is released. */
    method AbandonFrom(i: nat, releases: seq<bool>)
      requires i < |releases|
      modifies `events
      ensures events == old(events) + ([Offer(i, Failed)] + Releases(releases, i, |releases|))
    {
      events := events + [Offer(i, Failed)];
      TerminateMessageVisibility(releases, i, |releases|);
    }

    /** The loop over the received messages. */
    method SubmitBatch(answers: seq<SubmitAnswer>, releases: seq<bool>) returns (shouldWait: bool)
      requires |answers| == |releases|
      modifies `events
      ensures events == old(events) + BatchEvents(answers, releases)
      ensures shouldWait == (FirstFailure(answers) < |answers|)
    {
      for i := 0 to |answers|
        invariant i <= FirstFailure(answers)
        invariant events == old(events) + Offers(answers, releases, i)
      {
        BatchFrom(answers, releases, i);
        if answers[i] == Failed {
          AbandonFrom(i, releases);
          return true;
        }
        OfferMessage(i, answers, releases);
      }
      BatchFrom(answers, releases, |answers|);
      return false;
    }

    /** One poll.  available is the number of available workers, answers and
        releases are what the pool and the queue answer for each message. */
    method Poll(available: int, received: Received, answers: seq<SubmitAnswer>, releases: seq<bool>)
      returns (shouldWait: bool)
      requires received.Batch? ==> |answers| == |releases| == received.size
      modifies `events
      ensures available <= 0 ==> shouldWait && events == old(events)
      ensures available > 0 ==>
        && |old(events)| < |events| && events[|old(events)|].Receive?
        && var n := events[|old(events)|].max;
           n <= available && n <= maxNumberOfMessages && (n == available || n == maxNumberOfMessages)
      ensures available > 0 && (received.Error? || received.size == 0) ==>
        shouldWait && events == old(events) + [Receive(Min(maxNumberOfMessages, available))]
      ensures available > 0 && received.Batch? && received.size > 0 ==>
        && shouldWait == (FirstFailure(answers) < |answers|)
        && events == old(events) + [Receive(Min(maxNumberOfMessages, available))] + BatchEvents(answers, releases)
    {
      if !(available > 0) {
        return true;
      }
      events := events + [Receive(Min(maxNumberOfMessages, available))];
      if received.Error? || received.size == 0 {
        return true;
      }
      shouldWait := SubmitBatch(answers, releases);
    }
  }
}
