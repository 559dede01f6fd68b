/** The loop of a poller, by the steps that are possible one after the other. */
module EngineLoop {
  import Pool = PoolModel
  import Jobs
  import opened EngineModel
  import opened Tokens

  /** Poller p can take step e. */
  predicate Can(s: State, p: nat, e: PollerStep) {
    p < |s.pollers| && PollerEnabled(s, p, e)
  }

  // ------------------------------------------------------ after a single step

  /** A poller that has been told to quit ends at its select, another one goes on to
      its token. */
  lemma AfterSelect(c: Pool.Conf, ownerId: string, s: State, p: nat)
    requires Enabled(c, s, OfPoller(p, Select))
    ensures var s' := Apply(c, ownerId, s, OfPoller(p, Select));
      if s.pollers[p].stop != NotStopped then forall e :: !Can(s', p, e) else forall x :: Can(s', p, LookAtToken(x))
  {
  }

  /** With an expired token a poller waits, otherwise it polls. */
  lemma AfterToken(c: Pool.Conf, ownerId: string, s: State, p: nat, expired: bool)
    requires Enabled(c, s, OfPoller(p, LookAtToken(expired)))
    ensures var s' := Apply(c, ownerId, s, OfPoller(p, LookAtToken(expired)));
      && (Can(s', p, AskAvailable) <==> !expired)
      && (Can(s', p, WakeUp) <==> expired)
  {
  }

  /** It receives exactly if there are available workers, and waits otherwise. */
  lemma AfterAsking(c: Pool.Conf, ownerId: string, s: State, p: nat, received: seq<Jobs.Message>)
    requires Enabled(c, s, OfPoller(p, AskAvailable))
    ensures var s' := Apply(c, ownerId, s, OfPoller(p, AskAvailable));
      && (Can(s', p, Receive(received)) <==> 0 < c.max - s.pool.current + s.pool.idle)
      && (Can(s', p, WakeUp) <==> c.max - s.pool.current + s.pool.idle <= 0)
  {
  }

  /** It waits after an empty answer and otherwise deals with the messages, the
      first of them being the next one received by anybody. */
  lemma AfterReceiving(c: Pool.Conf, ownerId: string, s: State, p: nat, received: seq<Jobs.Message>)
    requires Enabled(c, s, OfPoller(p, Receive(received)))
    ensures var s' := Apply(c, ownerId, s, OfPoller(p, Receive(received)));
      && (Can(s', p, WakeUp) <==> received == [])
      && (Can(s', p, SubmitNext) <==> received != [] && Pool.WriterFree(s.pool.control))
      && !Can(s', p, BatchDone)
      && s'.messages == s.messages + received
  {
  }

  /** After a batch, and after a pause, it is at its select. */
  lemma AfterTurn(c: Pool.Conf, ownerId: string, s: State, p: nat, e: PollerStep)
    requires Enabled(c, s, OfPoller(p, e)) && e in {BatchDone, WakeUp}
    ensures Can(Apply(c, ownerId, s, OfPoller(p, e)), p, Select)
  {
  }

  /** Repositories are pulled exactly if there are some. */
  lemma PullingStarts(c: Pool.Conf, ownerId: string, s: State, some: bool, token: Token, oks: seq<bool>)
    requires Enabled(c, s, Proc(Start(some, token, oks)))
    ensures PullerEnabled(Apply(c, ownerId, s, Proc(Start(some, token, oks))), PullTick) <==> some
  {
  }

  /** The goroutine for tokens asks for one at every tick, and comes back to its
      select after a failure and after a refresh; the one for repositories pulls at
      every tick and comes back likewise. */
  lemma BackgroundLoops(c: Pool.Conf, ownerId: string, s: State, token: Token)
    ensures Enabled(c, s, Runner(TokenTick)) ==>
      var s' := Apply(c, ownerId, s, Runner(TokenTick));
      && RunnerEnabled(s', TokenFailed)
      && forall oks | |oks| == |token.queuePropertiesList| :: RunnerEnabled(s', TokenReceived(token, oks))
    ensures forall r | r in {TokenFailed, RefreshDone} && Enabled(c, s, Runner(r)) ::
      RunnerEnabled(Apply(c, ownerId, s, Runner(r)), TokenTick)
    ensures Enabled(c, s, Puller(PullTick)) ==> PullerEnabled(Apply(c, ownerId, s, Puller(PullTick)), PullDone)
    ensures Enabled(c, s, Puller(PullDone)) ==> PullerEnabled(Apply(c, ownerId, s, Puller(PullDone)), PullTick)
  {
  }

  // ------------------------------------------------------------ whole runs

  /** The steps of poller p in a run. */
  function Steps(acts: seq<Action>, p: nat): seq<PollerStep> {
    if acts == [] then []
    else (if acts[0].OfPoller? && acts[0].p == p then [acts[0].e] else []) + Steps(acts[1..], p)
  }

  /** Step e can come directly before step next. */
  predicate Follows(e: PollerStep, next: PollerStep) {
    match e
    case Select => next.LookAtToken?
    case LookAtToken(expired) => next == if expired then WakeUp else AskAvailable
    case AskAvailable => next.Receive? || next == WakeUp
    case Receive(received) => next == if received == [] then WakeUp else SubmitNext
    case SubmitNext => next == TakeAnswer
    case TakeAnswer => next in {SubmitNext, BatchDone, RestReleased} || next.ReleaseNext?
    case ReleaseNext(_) => next in {SubmitNext, BatchDone, RestReleased} || next.ReleaseNext?
    case BatchDone => next == Select
    case RestReleased => next == WakeUp
    case WakeUp => next == Select
  }

  lemma OthersLeavePc(c: Pool.Conf, ownerId: string, s: State, a: Action, p: nat)
    requires Enabled(c, s, a) && !(a.OfPoller? && a.p == p) && p < |s.pollers|
    ensures p < |Apply(c, ownerId, s, a).pollers| && Apply(c, ownerId, s, a).pollers[p].pc == s.pollers[p].pc
  {
    match a
    case Proc(x) =>
    case Runner(r) =>
    case Puller(y) =>
    case OfPoller(q, e) =>
    case StopOf(q, z) =>
    case OfPool(x) =>
    case FinishJob(w, _, _) =>
  }

  /** What follows on a step is decided by where the poller is. */
  predicate PastPc(pc: PollerPc, e: PollerStep) {
    match e
    case Select => pc in {Chosen, Exited}
    case LookAtToken(expired) => pc == if expired then Resting else Asking
    case AskAvailable => pc in {Receiving, Resting}
    case Receive(received) => if received == [] then pc == Resting else pc.Offering? && pc.batch != []
    case SubmitNext => pc.Submitting?
    case TakeAnswer => pc.Offering? || pc.ReleasingOne? || pc.ReleasingRest?
    case ReleaseNext(_) => pc.Offering? || pc.ReleasingRest?
    case BatchDone => pc == Top
    case RestReleased => pc == Resting
    case WakeUp => pc == Top
  }

  lemma PastPcFollows(s: State, p: nat, e: PollerStep, next: PollerStep)
    requires Can(s, p, next) && PastPc(s.pollers[p].pc, e)
    ensures Follows(e, next)
  {
  }

  lemma OwnPastPc(c: Pool.Conf, s: State, p: nat, e: PollerStep)
    requires Can(s, p, e)
    ensures PastPc(NextPc(c, s, p, e), e)
  {
  }

  /** Each step follows on the one before it, the first one on last. */
  predicate InOrder(last: PollerStep, steps: seq<PollerStep>)
    decreases |steps|
  {
    steps == [] || (Follows(last, steps[0]) && InOrder(steps[0], steps[1..]))
  }

  lemma {:induction false} InOrderAt(last: PollerStep, steps: seq<PollerStep>, i: nat)
    requires InOrder(last, steps) && i < |steps|
    ensures Follows(if i == 0 then last else steps[i - 1], steps[i])
    decreases |steps|
  {
    if i > 0 {
      InOrderAt(steps[0], steps[1..], i - 1);
    }
  }

  lemma {:induction false} OrderFrom(
    c: Pool.Conf, ownerId: string, s: State, acts: seq<Action>, p: nat, last: PollerStep)
    requires IsRun(c, ownerId, s, acts) && p < |s.pollers| && PastPc(s.pollers[p].pc, last)
    ensures InOrder(last, Steps(acts, p))
    decreases |acts|
  {
    if acts != [] {
      var a, rest := acts[0], acts[1..];
      if a.OfPoller? && a.p == p {
        PastPcFollows(s, p, last, a.e);
        OwnPastPc(c, s, p, a.e);
        OrderFrom(c, ownerId, Apply(c, ownerId, s, a), rest, p, a.e);
        assert Steps(acts, p)[1..] == Steps(rest, p);
      } else {
        OthersLeavePc(c, ownerId, s, a, p);
        OrderFrom(c, ownerId, Apply(c, ownerId, s, a), rest, p, last);
        assert Steps(acts, p) == Steps(rest, p);
      }
    }
  }

  lemma {:induction false} OrderFromFirst(c: Pool.Conf, ownerId: string, s: State, acts: seq<Action>, p: nat)
    requires IsRun(c, ownerId, s, acts) && p < |s.pollers|
    ensures var steps := Steps(acts, p); steps == [] || InOrder(steps[0], steps[1..])
    decreases |acts|
  {
    if acts != [] {
      var a, rest := acts[0], acts[1..];
      if a.OfPoller? && a.p == p {
        OwnPastPc(c, s, p, a.e);
        OrderFrom(c, ownerId, Apply(c, ownerId, s, a), rest, p, a.e);
        assert Steps(acts, p)[1..] == Steps(rest, p);
      } else {
        OthersLeavePc(c, ownerId, s, a, p);
        OrderFromFirst(c, ownerId, Apply(c, ownerId, s, a), rest, p);
        assert Steps(acts, p) == Steps(rest, p);
      }
    }
  }

  /** In every run, whatever happens between them, consecutive steps of a poller
      follow on each other. */
  lemma LoopOrder(c: Pool.Conf, ownerId: string, s: State, acts: seq<Action>, p: nat)
    requires IsRun(c, ownerId, s, acts) && p < |s.pollers|
    ensures forall i | 0 < i < |Steps(acts, p)| :: Follows(Steps(acts, p)[i - 1], Steps(acts, p)[i])
  {
    OrderFromFirst(c, ownerId, s, acts, p);
    var steps := Steps(acts, p);
    forall i | 0 < i < |steps|
      ensures Follows(steps[i - 1], steps[i])
    {
      InOrderAt(steps[0], steps[1..], i - 1);
    }
  }

  /** In particular a poller polls only directly after an unexpired token, and after
      an expired one only wakes up. */
  lemma PollsOnlyUnexpired(c: Pool.Conf, ownerId: string, s: State, acts: seq<Action>, p: nat)
    requires IsRun(c, ownerId, s, acts) && p < |s.pollers|
    ensures var steps := Steps(acts, p);
      && (forall i | 0 < i < |steps| && steps[i] == AskAvailable :: steps[i - 1] == LookAtToken(false))
      && (forall i | 0 < i < |steps| && steps[i - 1] == LookAtToken(true) :: steps[i] == WakeUp)
      && (forall i | 0 < i < |steps| && steps[i].Receive? :: steps[i - 1] == AskAvailable)
  {
    LoopOrder(c, ownerId, s, acts, p);
    var steps := Steps(acts, p);
    forall i | 0 < i < |steps|
      ensures steps[i] == AskAvailable ==> steps[i - 1] == LookAtToken(false)
      ensures steps[i].Receive? ==> steps[i - 1] == AskAvailable
    {
      assert Follows(steps[i - 1], steps[i]);
    }
  }

  lemma Follow(c: Pool.Conf, ownerId: string, s: State, a: Action, rest: seq<Action>) returns (acts: seq<Action>)
    requires Enabled(c, s, a) && IsRun(c, ownerId, Apply(c, ownerId, s, a), rest)
    ensures IsRun(c, ownerId, s, acts) && Exec(c, ownerId, s, acts) == Exec(c, ownerId, Apply(c, ownerId, s, a), rest)
    ensures acts == [a] + rest
  {
    acts := [a] + rest;
    assert acts[1..] == rest;
  }

  lemma PollFromToken(c: Pool.Conf, ownerId: string, s: State, p: nat, received: seq<Jobs.Message>)
    returns (acts: seq<Action>)
    requires Can(s, p, LookAtToken(false)) && 0 < c.max - s.pool.current + s.pool.idle
    ensures acts == [OfPoller(p, LookAtToken(false)), OfPoller(p, AskAvailable)]
    ensures IsRun(c, ownerId, s, acts) && Can(Exec(c, ownerId, s, acts), p, Receive(received))
  {
    var s1 := Apply(c, ownerId, s, OfPoller(p, LookAtToken(false)));
    AfterToken(c, ownerId, s, p, false);
    AfterAsking(c, ownerId, s1, p, received);
    acts := Follow(c, ownerId, s1, OfPoller(p, AskAvailable), []);
    acts := Follow(c, ownerId, s, OfPoller(p, LookAtToken(false)), acts);
  }

  /** A poller at its select that has not been told to quit polls, by steps of its
      own, if its token has not expired and there are available workers. */
  lemma PollReaches(c: Pool.Conf, ownerId: string, s: State, p: nat, received: seq<Jobs.Message>)
    returns (acts: seq<Action>)
    requires Can(s, p, Select) && s.pollers[p].stop == NotStopped && 0 < c.max - s.pool.current + s.pool.idle
    ensures acts == [OfPoller(p, Select), OfPoller(p, LookAtToken(false)), OfPoller(p, AskAvailable)]
    ensures IsRun(c, ownerId, s, acts) && Can(Exec(c, ownerId, s, acts), p, Receive(received))
  {
    var s1 := Apply(c, ownerId, s, OfPoller(p, Select));
    AfterSelect(c, ownerId, s, p);
    assert Can(s1, p, LookAtToken(false));
    acts := PollFromToken(c, ownerId, s1, p, received);
    acts := Follow(c, ownerId, s, OfPoller(p, Select), acts);
  }
}
