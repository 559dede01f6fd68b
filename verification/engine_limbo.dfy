/** When the engine can leave a message in limbo: accepted by the pool, but
    neither processed nor given back when the processor has stopped. */
module EngineLimbo {
  import Pool = PoolModel
  import Jobs
  import opened EngineModel
  import opened EngineTheorems
  import opened Tokens

  /** A running pool without workers, as it is with a minimum of zero. */
  function IdlePool(jobs: seq<Pool.Ticket>, submits: seq<Pool.SubmitPc>): Pool.State {
    Pool.State(0, 0, jobs, false, false, true, 0, Pool.Running, Pool.Selecting, [], submits, [])
  }

  /** The poller of a queue whose entry was added. */
  function PollerOf(queue: Properties, pc: PollerPc, stop: StopPc): Poller {
    Poller(queue.url, queue.assumeRoleResult, true, pc, stop)
  }

  /** A token with one entry, of which `done` have been dealt with. */
  function OneEntry(queue: Properties, done: nat): Refresh {
    Refresh([queue], [true], done, {}, map[])
  }

  /** The engine without pollers, in a phase of the processor. */
  function NoPollers(pool: Pool.State, proc: ProcPc, queue: Properties): State {
    State(pool, proc, false, NotStarted, NoRepositories, [], OneEntry(queue, 0), [], map[], [])
  }

  lemma PoolIsStarted(c: Pool.Conf, ownerId: string, queue: Properties) returns (s: State)
    requires c.Valid() && c.min == 0
    ensures Reachable(c, ownerId, s)
    ensures s == NoPollers(IdlePool([], []), StartingPool, queue)
  {
    s := INIT;
    assert IsRun(c, ownerId, s, []) && Exec(c, ownerId, s, []) == s;
    s := Then(c, ownerId, s, Proc(Start(false, Token("", [queue]), [true])));
    s := Then(c, ownerId, s, OfPool(Pool.ByCaller(Pool.StartLock)));
    s := Then(c, ownerId, s, OfPool(Pool.ByCaller(Pool.StartCount)));
    s := Then(c, ownerId, s, OfPool(Pool.ByCaller(Pool.StartWgAdd)));
    s := Then(c, ownerId, s, OfPool(Pool.ByCaller(Pool.StartReturn)));
  }

  lemma Started(c: Pool.Conf, ownerId: string, queue: Properties) returns (s: State)
    requires c.Valid() && c.min == 0
    ensures Reachable(c, ownerId, s)
    ensures s == State(IdlePool([], []), ProcRunning, false, Selecting, NoRepositories,
                       [PollerOf(queue, Top, NotStopped)], OneEntry(queue, 1), [], map[], [])
  {
    s := PoolIsStarted(c, ownerId, queue);
    s := Then(c, ownerId, s, Proc(PoolStarted));
    s := Then(c, ownerId, s, Runner(AddPoller));
    s := Then(c, ownerId, s, Proc(StartReturns));
  }

  lemma ReadyToReceive(c: Pool.Conf, ownerId: string, queue: Properties) returns (s: State)
    requires c.Valid() && c.min == 0
    ensures Reachable(c, ownerId, s)
    ensures s == State(IdlePool([], []), ProcRunning, false, Selecting, NoRepositories,
                       [PollerOf(queue, Receiving, NotStopped)], OneEntry(queue, 1), [], map[], [])
  {
    s := Started(c, ownerId, queue);
    s := Then(c, ownerId, s, OfPoller(0, Select));
    s := Then(c, ownerId, s, OfPoller(0, LookAtToken(false)));
    s := Then(c, ownerId, s, OfPoller(0, AskAvailable));
  }

  lemma ReceivedOne(c: Pool.Conf, ownerId: string, queue: Properties, message: Jobs.Message) returns (s: State)
    requires c.Valid() && c.min == 0
    ensures Reachable(c, ownerId, s)
    ensures s == State(IdlePool([], []), ProcRunning, false, Selecting, NoRepositories,
                       [PollerOf(queue, Offering(0, [message]), NotStopped)], OneEntry(queue, 1),
                       [message], map[0 := Held(0)], [])
  {
    s := ReadyToReceive(c, ownerId, queue);
    s := Then(c, ownerId, s, OfPoller(0, Receive([message])));
  }

  /** The engine with one poller and one message, which the poller has submitted. */
  function OneSubmitted(pool: Pool.State, queue: Properties, poller: Poller, message: Jobs.Message): State {
    State(pool, ProcRunning, false, Selecting, NoRepositories,
          [poller], OneEntry(queue, 1), [message], map[0 := Held(0)], [JobRecord(0, 0, message, Jobs.Initial, [])])
  }

  lemma SubmittedOne(c: Pool.Conf, ownerId: string, queue: Properties, message: Jobs.Message) returns (s: State)
    requires c.Valid() && c.min == 0
    ensures Reachable(c, ownerId, s)
    ensures s == OneSubmitted(IdlePool([], [Pool.Sending]), queue,
                              PollerOf(queue, Submitting(0, [message], 0), NotStopped), message)
  {
    s := ReceivedOne(c, ownerId, queue, message);
    s := Then(c, ownerId, s, OfPoller(0, SubmitNext));
    s := Then(c, ownerId, s, OfPool(Pool.BySubmit(0, Pool.CheckRunning)));
  }

  /** The same engine in a phase of the stop, the pool having accepted. */
  function OneAccepted(
    proc: ProcPc, quit: bool, runner: RunnerPc, queue: Properties, poller: Poller, message: Jobs.Message,
    status: Status): State
  {
    State(IdlePool([0], [Pool.Returned(Pool.Accepted)]), proc, quit, runner, NoRepositories,
          [poller], OneEntry(queue, 1), [message], map[0 := status], [JobRecord(0, 0, message, Jobs.Initial, [])])
  }

  lemma AcceptedOne(c: Pool.Conf, ownerId: string, queue: Properties, message: Jobs.Message) returns (s: State)
    requires c.Valid() && c.min == 0 && 0 < c.queueSize
    ensures Reachable(c, ownerId, s)
    ensures s == OneAccepted(ProcRunning, false, Selecting, queue,
                             PollerOf(queue, Submitting(0, [message], 0), NotStopped), message, Held(0))
  {
    s := SubmittedOne(c, ownerId, queue, message);
    s := Then(c, ownerId, s, OfPool(Pool.BySubmit(0, Pool.SendBuffer)));
    s := Then(c, ownerId, s, OfPool(Pool.BySubmit(0, Pool.Unlock)));
  }

  lemma Stopping(c: Pool.Conf, ownerId: string, queue: Properties, message: Jobs.Message) returns (s: State)
    requires c.Valid() && c.min == 0 && 0 < c.queueSize
    ensures Reachable(c, ownerId, s)
    ensures s == OneAccepted(StopCalled, true, StoppingPollers, queue, PollerOf(queue, Top, NotStopped),
                             message, Submitted(0))
  {
    s := AcceptedOne(c, ownerId, queue, message);
    s := Then(c, ownerId, s, OfPoller(0, TakeAnswer));
    s := Then(c, ownerId, s, OfPoller(0, BatchDone));
    s := Then(c, ownerId, s, Proc(StopCloseQuit));
    s := Then(c, ownerId, s, Runner(SeeQuit));
  }

  lemma PollerTold(c: Pool.Conf, ownerId: string, queue: Properties, message: Jobs.Message) returns (s: State)
    requires c.Valid() && c.min == 0 && 0 < c.queueSize
    ensures Reachable(c, ownerId, s)
    ensures s == OneAccepted(StopCalled, true, StoppingPollers, queue, PollerOf(queue, Top, WakeUpClosed),
                             message, Submitted(0))
  {
    s := Stopping(c, ownerId, queue, message);
    s := Then(c, ownerId, s, Runner(StopPoller(0)));
    s := Then(c, ownerId, s, StopOf(0, CloseWakeUp));
  }

  lemma PollersStopped(c: Pool.Conf, ownerId: string, queue: Properties, message: Jobs.Message) returns (s: State)
    requires c.Valid() && c.min == 0 && 0 < c.queueSize
    ensures Reachable(c, ownerId, s)
    ensures s == OneAccepted(StopCalled, true, RunnerDone, queue, PollerOf(queue, Exited, StopReturned),
                             message, Submitted(0))
  {
    s := PollerTold(c, ownerId, queue, message);
    s := Then(c, ownerId, s, OfPoller(0, Select));
    s := Then(c, ownerId, s, StopOf(0, Join));
    s := Then(c, ownerId, s, Runner(AllStopped));
  }

  /** The pool without workers has been told to stop. */
  lemma PoolStopping(c: Pool.Conf, ownerId: string, queue: Properties, message: Jobs.Message) returns (s: State)
    requires c.Valid() && c.min == 0 && 0 < c.queueSize
    ensures Reachable(c, ownerId, s) && s.proc == StoppingPool
    ensures s.pool.control == Pool.StopWaiting && s.pool.wg == 0 && s.pool.queue == [0]
    ensures s.messages == [message] && s.status == map[0 := Submitted(0)]
  {
    s := PollersStopped(c, ownerId, queue, message);
    s := Then(c, ownerId, s, Proc(Joined));
    s := Then(c, ownerId, s, OfPool(Pool.ByCaller(Pool.StopLock)));
    s := Then(c, ownerId, s, OfPool(Pool.ByCaller(Pool.StopFlag)));
    s := Then(c, ownerId, s, OfPool(Pool.ByCaller(Pool.StopCloseQuit)));
  }

  /** Without a minimum of workers one message and an ordinary stop suffice: the
      job is buffered, no worker is ever created for it, and Stop does not wait. */
  lemma StrandedMessage(c: Pool.Conf, ownerId: string, queue: Properties, message: Jobs.Message) returns (s: State)
    requires c.Valid() && c.min == 0 && 0 < c.queueSize
    ensures Reachable(c, ownerId, s) && s.proc == ProcStopped
    ensures s.messages == [message] && Stranded(s, 0)
  {
    s := PoolStopping(c, ownerId, queue, message);
    s := Then(c, ownerId, s, OfPool(Pool.ByCaller(Pool.StopReturn)));
    s := Then(c, ownerId, s, Proc(PoolStopped));
    s := Then(c, ownerId, s, Proc(StopReturns));
  }

  /** Every message of every run is given back or processed once the processor
      has stopped. */
  ghost predicate NeverInLimbo(c: Pool.Conf, ownerId: string) {
    forall s, m: Msg | Reachable(c, ownerId, s) && s.proc == ProcStopped && m < |s.messages| ::
      GivenBack(s, m) || Processed(ownerId, s, m)
  }

  /** This is so exactly if a minimum of workers is configured or there is no
      buffer. */
  lemma NeverInLimboIff(c: Pool.Conf, ownerId: string)
    requires c.Valid()
    ensures NeverInLimbo(c, ownerId) <==> (1 <= c.min || c.queueSize == 0)
  {
    if 1 <= c.min || c.queueSize == 0 {
      forall s, m: Msg | Reachable(c, ownerId, s) && s.proc == ProcStopped && m < |s.messages|
        ensures GivenBack(s, m) || Processed(ownerId, s, m)
      {
        NoMessageInLimbo(c, ownerId, s, m);
      }
    } else {
      var s := StrandedMessage(c, ownerId, Properties(NO_ROLE, "", "", 0, 0), Jobs.Message(Jobs.NoAttributes));
      FateOfMessage(c, ownerId, s, 0);
      assert Stranded(s, 0);
    }
  }
}
