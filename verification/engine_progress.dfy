/** The processor's Stop returns: once quit is closed every action that begins no
    new work reduces what is left to do, and some such action is always possible,
    so the waits of the goroutines for each other never form a circle. */
module EngineProgress {
  import Pool = PoolModel
  import PoolShutdown
  import opened Sums
  import opened EngineModel
  import opened EngineInvariant
  import Refresh = EngineRefresh
  import opened EngineTheorems

  /** An action that begins no new work: no keep-alive expiry, no token fetched,
      no pull, no message received, and no step of a poller that has not been told
      to quit. */
  predicate Advances(s: State, a: Action) {
    match a
    case Proc(_) => true
    case Runner(r) => !r.TokenTick? && !r.TokenReceived?
    case Puller(y) => !y.PullTick?
    case OfPoller(p, e) => p < |s.pollers| && PollerQuit(s.pollers[p]) && (e.Receive? ==> e.received == [])
    case StopOf(_, _) => true
    case OfPool(x) => !PoolShutdown.IsTick(x)
    case FinishJob(_, _, _) => true
  }

  predicate Stopping(s: State) {
    s.proc in {StopCalled, StoppingPool, RemovingRepos}
  }

  predicate QuitClosedOrLater(s: State) {
    Stopping(s) || s.proc == ProcStopped
  }

  /** A poller that has not ended can take a step, or the pool can take the step
      of its submission that it waits for. */
  lemma PollerNotStuck(c: Pool.Conf, ownerId: string, s: State, p: nat) returns (a: Action)
    requires c.Valid() && Inv(c, ownerId, s) && p < |s.pollers| && Alive(s.pollers[p]) && PollerQuit(s.pollers[p])
    ensures Enabled(c, s, a) && Advances(s, a)
  {
    AliveMeansRunning(c, s, p);
    match s.pollers[p].pc
    case Top => a := OfPoller(p, Select);
    case Chosen => a := OfPoller(p, LookAtToken(false));
    case Asking => a := OfPoller(p, AskAvailable);
    case Receiving => a := OfPoller(p, Receive([]));
    case Offering(_, batch) => a := OfPoller(p, if batch == [] then BatchDone else SubmitNext);
    case Submitting(_, _, t) =>
      if s.pool.submits[t].Returned? {
        a := OfPoller(p, TakeAnswer);
      } else {
        var e := PoolShutdown.SubmitNeverWaits(c, s.pool, t);
        a := OfPool(Pool.BySubmit(t, e));
      }
    case ReleasingOne(_, _) => a := OfPoller(p, ReleaseNext(true));
    case ReleasingRest(_, batch) => a := OfPoller(p, if batch == [] then RestReleased else ReleaseNext(true));
    case Resting => a := OfPoller(p, WakeUp);
  }

  /** The Stop of a poller goes on. */
  lemma PollerStopNotStuck(c: Pool.Conf, ownerId: string, s: State, p: nat) returns (a: Action)
    requires c.Valid() && Inv(c, ownerId, s) && p < |s.pollers|
    requires s.pollers[p].stop in {QuitClosed, WakeUpClosed}
    ensures Enabled(c, s, a) && Advances(s, a)
  {
    if s.pollers[p].stop == QuitClosed {
      a := StopOf(p, CloseWakeUp);
    } else if s.pollers[p].pc == Exited {
      a := StopOf(p, Join);
    } else {
      a := PollerNotStuck(c, ownerId, s, p);
    }
  }

  lemma RunnerNotStuck(c: Pool.Conf, ownerId: string, s: State) returns (a: Action)
    requires c.Valid() && Reachable(c, ownerId, s) && s.proc == StopCalled && s.runner != RunnerDone
    ensures Enabled(c, s, a) && Advances(s, a)
  {
    ReachableInv(c, ownerId, s);
    if p: nat :| p < |s.pollers| && s.pollers[p].stop in {QuitClosed, WakeUpClosed} {
      a := PollerStopNotStuck(c, ownerId, s, p);
    } else {
      assert NoStopInProgress(s);
      match s.runner
      case Selecting => a := Runner(SeeQuit);
      case Fetching => a := Runner(TokenFailed);
      case Refreshing =>
        if RefreshOver(s) {
          a := Runner(RefreshDone);
        } else {
          var r := Refresh.RefreshNotStuck(c, ownerId, s);
          a := Runner(r);
        }
      case StoppingPollers =>
        if p: nat :| p < |s.pollers| && s.pollers[p].inMap && s.pollers[p].stop == NotStopped {
          a := Runner(StopPoller(p));
        } else {
          a := Runner(AllStopped);
        }
      case _ =>
    }
  }

  lemma NoReadersLeft(c: Pool.Conf, ownerId: string, s: State)
    requires Inv(c, ownerId, s) && s.runner == RunnerDone
    ensures Pool.NoReaders(s.pool)
  {
    forall t | 0 <= t < |s.pool.submits|
      ensures s.pool.submits[t].Returned?
    {
      assert JobOk(s, t);
      assert PollerOk(s, s.pollers[s.jobs[t].poller]);
    }
  }

  /** Actions of the waiting pool are actions of the engine. */
  lemma PoolActionOf(c: Pool.Conf, ownerId: string, s: State, x: Pool.Action) returns (a: Action)
    requires c.Valid() && Inv(c, ownerId, s) && s.proc == StoppingPool && s.pool.control == Pool.StopWaiting
    requires Pool.Enabled(c, s.pool, x) && !PoolShutdown.IsTick(x) && !PoolShutdown.IsSubmission(x)
    ensures Enabled(c, s, a) && Advances(s, a)
  {
    if x.ByWorker? && x.k == Pool.FinishJob {
      BusyNotExecuted(c, s, x.w);
      a := FinishJob(x.w, true, true);
    } else {
      a := OfPool(x);
    }
  }

  lemma PoolStopNotStuck(c: Pool.Conf, ownerId: string, s: State) returns (a: Action)
    requires c.Valid() && Inv(c, ownerId, s) && s.proc == StoppingPool
    ensures Enabled(c, s, a) && Advances(s, a)
  {
    NoReadersLeft(c, ownerId, s);
    match s.pool.control
    case Running => a := OfPool(Pool.ByCaller(Pool.StopLock));
    case StopLocked => a := OfPool(Pool.ByCaller(Pool.StopFlag));
    case StopFlagged => a := OfPool(Pool.ByCaller(Pool.StopCloseQuit));
    case StopWaiting =>
      var x := PoolShutdown.StopNotStuck(c, s.pool);
      a := PoolActionOf(c, ownerId, s, x);
    case Stopped => a := Proc(PoolStopped);
    case _ =>
  }

  /** From the moment the processor closes quit until its Stop returns, some
      goroutine can always take a step that begins no new work. */
  lemma StopNotStuck(c: Pool.Conf, ownerId: string, s: State) returns (a: Action)
    requires c.Valid() && Reachable(c, ownerId, s) && Stopping(s)
    ensures Enabled(c, s, a) && Advances(s, a)
  {
    ReachableInv(c, ownerId, s);
    match s.proc
    case StopCalled =>
      if s.runner != RunnerDone {
        a := RunnerNotStuck(c, ownerId, s);
      } else if s.puller == Sleeping {
        a := Puller(PullerQuit);
      } else if s.puller == Pulling {
        a := Puller(PullDone);
      } else {
        a := Proc(Joined);
      }
    case StoppingPool => a := PoolStopNotStuck(c, ownerId, s);
    case RemovingRepos => a := Proc(StopReturns);
    case _ =>
  }

  /** A job object exists for every job a worker executes, so the end of an
      execution is never held up. */
  lemma FinishNeverBlocked(c: Pool.Conf, ownerId: string, s: State, w: nat, deleteOk: bool, handleOk: bool)
    requires c.Valid() && Reachable(c, ownerId, s)
    requires Pool.Enabled(c, s.pool, Pool.ByWorker(w, Pool.FinishJob))
    ensures Enabled(c, s, FinishJob(w, deleteOk, handleOk))
  {
    ReachableInv(c, ownerId, s);
    BusyNotExecuted(c, s, w);
  }

  // ------------------------------------------------------ what is left to do

  function ProcRank(x: ProcPc): int {
    match x
    case StopCalled => 3
    case StoppingPool => 2
    case RemovingRepos => 1
    case _ => 0
  }

  function RunnerRank(r: RunnerPc): int {
    match r
    case Fetching => 4
    case Refreshing => 4
    case Selecting => 3
    case StoppingPollers => 2
    case _ => 0
  }

  /** Each entry of the token may still add a poller. */
  function RefreshRank(r: EngineModel.Refresh): int {
    if r.done <= |r.list| then 40 * (|r.list| - r.done) else 0
  }

  function PullerRank(y: PullerPc): int {
    match y
    case Pulling => 2
    case Sleeping => 1
    case _ => 0
  }

  function StopRank(z: StopPc): int {
    match z
    case NotStopped => 3
    case QuitClosed => 2
    case WakeUpClosed => 1
    case StopReturned => 0
  }

  function PollerRank(x: Poller): int {
    30 * StepsLeft(x.pc) + StopRank(x.stop)
  }

  /** A submission may still hand a job to the pool, which is work for it. */
  function SubmitRank(p: Pool.SubmitPc): int {
    match p
    case Holding => 20
    case Sending => 19
    case TrySpawn => 12
    case WgAdd => 11
    case GoSpawn => 10
    case Returning(_) => 1
    case Returned(_) => 0
  }

  function ControlRank(x: Pool.Control): int {
    match x
    case Running => 5
    case StopLocked => 4
    case StopFlagged => 3
    case StopWaiting => 1
    case _ => 0
  }

  ghost function PoolWork(s: Pool.State): int {
    ControlRank(s.control) + Sum(s.submits, SubmitRank) + PoolShutdown.Remaining(s)
  }

  ghost function Work(s: State): int {
    ProcRank(s.proc) + RunnerRank(s.runner) + RefreshRank(s.refresh) + PullerRank(s.puller)
    + Sum(s.pollers, PollerRank) + PoolWork(s.pool)
  }

  lemma WorkNonNegative(s: State)
    ensures 0 <= Work(s)
  {
    SumBounds(s.pollers, PollerRank);
    SumBounds(s.pool.submits, SubmitRank);
    PoolShutdown.RemainingNonNegative(s.pool);
  }

  /** What a submission adds to the work of the goroutines of the pool. */
  lemma SubmitRemaining(c: Pool.Conf, s: Pool.State, t: nat, e: Pool.SubmitStep)
    requires t < |s.submits| && Pool.SubmitEnabled(c, s, s.submits[t], e)
    ensures PoolShutdown.Remaining(Pool.SubmitApply(c, s, t, e)) - PoolShutdown.Remaining(s) <=
            match e
            case SendHandoff(_) => 4
            case SendBuffer => 4
            case GoWorker => 7
            case _ => 0
  {
    match e
    case SendHandoff(w) => SumUpdate(s.workers, w, Pool.Took(t), PoolShutdown.Rank);
    case GoWorker => SumAppend(s.workers, Pool.Spawned(Pool.Some(t)), PoolShutdown.Rank);
    case _ =>
  }

  lemma SubmitWork(c: Pool.Conf, s: Pool.State, t: nat, e: Pool.SubmitStep)
    requires t < |s.submits| && Pool.SubmitEnabled(c, s, s.submits[t], e)
    ensures PoolWork(Pool.SubmitApply(c, s, t, e)) < PoolWork(s)
  {
    var p := Pool.NextSubmit(c, s, s.submits[t], e);
    SumUpdate(s.submits, t, p, SubmitRank);
    assert Pool.SubmitApply(c, s, t, e).submits == s.submits[t := p];
    assert Pool.SubmitApply(c, s, t, e).control == s.control;
    SubmitRemaining(c, s, t, e);
  }

  lemma WorkerWork(c: Pool.Conf, s: Pool.State, w: nat, k: Pool.WorkerStep)
    requires w < |s.workers| && Pool.WorkerEnabled(c, s, s.workers[w], k)
    ensures var d := PoolWork(Pool.WorkerApply(c, s, w, k)) - PoolWork(s);
      if k.Tick? then d <= 2 else d <= -1
  {
    PoolShutdown.WorkerDecreases(c, s, w, k);
    var s' := Pool.WorkerApply(c, s, w, k);
    assert s'.control == s.control && s'.submits == s.submits;
  }

  lemma ControlWork(c: Pool.Conf, s: Pool.State, y: Pool.ControlStep)
    requires Pool.ControlEnabled(s, y) && y in {Pool.StopLock, Pool.StopFlag, Pool.StopCloseQuit, Pool.StopReturn}
    ensures PoolWork(Pool.ControlApply(c, s, y)) < PoolWork(s)
  {
  }

  lemma StarterWork(s: Pool.State, y: Pool.RunStep)
    requires Pool.RunEnabled(s, y)
    ensures PoolWork(Pool.RunApply(s, y)) < PoolWork(s)
  {
    PoolShutdown.RunDecreases(s, y);
  }

  /** What an action can add to the work, and the action itself: nothing unless
      it begins new work. */
  function Cost(s: State, a: Action): nat {
    match a
    case Runner(TokenTick) => 2
    case Runner(TokenReceived(token, _)) => 1 + 40 * |token.queuePropertiesList|
    case Puller(PullTick) => 2
    case OfPoller(p, Select) => if p < |s.pollers| && !PollerQuit(s.pollers[p]) then 211 else 0
    case OfPoller(_, Receive(received)) => 90 * |received|
    case OfPool(x) => if PoolShutdown.IsTick(x) then 3 else 0
    case _ => 0
  }

  lemma PoolCost(c: Pool.Conf, s: State, x: Pool.Action)
    requires QuitClosedOrLater(s) && Enabled(c, s, OfPool(x))
    ensures PoolWork(Pool.Apply(c, s.pool, x)) + 1 <= PoolWork(s.pool) + Cost(s, OfPool(x))
  {
    match x
    case ByCaller(y) => ControlWork(c, s.pool, y);
    case ByStarter(y) => StarterWork(s.pool, y);
    case SubmitCall =>
    case BySubmit(t, e) => SubmitWork(c, s.pool, t, e);
    case ByWorker(w, k) => WorkerWork(c, s.pool, w, k);
  }

  /** Only a poller that has not been told to quit goes back to the beginning. */
  lemma SelectCost(c: Pool.Conf, s: State, p: nat)
    requires p < |s.pollers| && PollerEnabled(s, p, Select)
    ensures Work(PollerApply(c, s, p, Select)) + 1 <= Work(s) + Cost(s, OfPoller(p, Select))
  {
    SumUpdate(s.pollers, p, s.pollers[p].(pc := NextPc(c, s, p, Select)), PollerRank);
  }

  lemma PollerCost(c: Pool.Conf, s: State, p: nat, e: PollerStep)
    requires p < |s.pollers| && PollerEnabled(s, p, e) && BatchOk(s, s.pollers[p].pc)
    ensures Work(PollerApply(c, s, p, e)) + 1 <= Work(s) + Cost(s, OfPoller(p, e))
  {
    if e == Select {
      SelectCost(c, s, p);
    } else {
      StepsDecrease(c, s, p, e);
      SumUpdate(s.pollers, p, s.pollers[p].(pc := NextPc(c, s, p, e)), PollerRank);
      SumAppend(s.pool.submits, Pool.Holding, SubmitRank);
    }
  }

  lemma RunnerCost(s: State, r: RunnerStep)
    requires RunnerEnabled(s, r) && QuitClosedOrLater(s) && PollersOk(s)
    ensures Work(RunnerApply(s, r)) + 1 <= Work(s) + Cost(s, Runner(r))
  {
    match r
    case RemovePoller(p) =>
      assert PollerOk(s, s.pollers[p]);
      SumUpdate(s.pollers, p, s.pollers[p].(inMap := false, stop := QuitClosed), PollerRank);
    case StopPoller(p) => SumUpdate(s.pollers, p, s.pollers[p].(stop := QuitClosed), PollerRank);
    case AddPoller => SumAppend(s.pollers, Added(Entry(s)), PollerRank);
    case RefreshClient(p) => SumUpdate(s.pollers, p, Refreshed(s.pollers[p], Entry(s), EntryOk(s)), PollerRank);
    case _ =>
  }

  lemma ProcCost(s: State, x: ProcStep)
    requires ProcEnabled(s, x) && QuitClosedOrLater(s)
    ensures Work(ProcApply(s, x)) + 1 <= Work(s)
  {
  }

  lemma PullerCost(s: State, y: PullerStep)
    requires PullerEnabled(s, y)
    ensures Work(PullerApply(s, y)) + 1 <= Work(s) + Cost(s, Puller(y))
  {
  }

  lemma StopCost(s: State, p: nat, z: StopStep)
    requires p < |s.pollers| && StopEnabled(s, p, z)
    ensures Work(StopApply(s, p, z)) + 1 <= Work(s)
  {
    SumUpdate(s.pollers, p, s.pollers[p].(stop := if z == Join then StopReturned else WakeUpClosed), PollerRank);
  }

  /** Every action reduces the work, but for what the new work it begins costs. */
  lemma ActionCost(c: Pool.Conf, ownerId: string, s: State, a: Action)
    requires PollersOk(s) && BatchesOk(s) && QuitClosedOrLater(s) && Enabled(c, s, a)
    ensures Work(Apply(c, ownerId, s, a)) + 1 <= Work(s) + Cost(s, a)
  {
    match a
    case Proc(x) => ProcCost(s, x);
    case Runner(r) => RunnerCost(s, r);
    case Puller(y) => PullerCost(s, y);
    case OfPoller(p, e) => PollerCost(c, s, p, e);
    case StopOf(p, z) => StopCost(s, p, z);
    case OfPool(x) => PoolCost(c, s, x);
    case FinishJob(w, _, _) => WorkerWork(c, s.pool, w, Pool.FinishJob);
  }

  lemma AdvanceIsFree(s: State, a: Action)
    requires Advances(s, a)
    ensures Cost(s, a) == 0
  {
  }

  /** Every action that begins no new work reduces the work. */
  lemma AdvanceDecreases(c: Pool.Conf, ownerId: string, s: State, a: Action)
    requires PollersOk(s) && BatchesOk(s) && QuitClosedOrLater(s) && Enabled(c, s, a) && Advances(s, a)
    ensures Work(Apply(c, ownerId, s, a)) < Work(s)
  {
    ActionCost(c, ownerId, s, a);
    AdvanceIsFree(s, a);
  }

  lemma StaysStopping(c: Pool.Conf, ownerId: string, s: State, a: Action)
    requires QuitClosedOrLater(s) && Enabled(c, s, a)
    ensures QuitClosedOrLater(Apply(c, ownerId, s, a))
  {
  }

  function Costs(c: Pool.Conf, ownerId: string, s: State, acts: seq<Action>): nat
    requires IsRun(c, ownerId, s, acts)
    decreases |acts|
  {
    if acts == [] then 0 else Cost(s, acts[0]) + Costs(c, ownerId, Apply(c, ownerId, s, acts[0]), acts[1..])
  }

  /** After the processor has closed quit, no run at all is longer than the work
      that was left and the new work begun in it. */
  lemma {:induction false} StoppingRunBound(c: Pool.Conf, ownerId: string, s: State, acts: seq<Action>)
    requires c.Valid() && Inv(c, ownerId, s) && QuitClosedOrLater(s) && IsRun(c, ownerId, s, acts)
    ensures |acts| <= Work(s) + Costs(c, ownerId, s, acts)
    decreases |acts|
  {
    if acts == [] {
      WorkNonNegative(s);
    } else {
      ActionCost(c, ownerId, s, acts[0]);
      StaysStopping(c, ownerId, s, acts[0]);
      InvStep(c, ownerId, s, acts[0]);
      StoppingRunBound(c, ownerId, Apply(c, ownerId, s, acts[0]), acts[1..]);
    }
  }

  predicate AllAdvance(c: Pool.Conf, ownerId: string, s: State, acts: seq<Action>)
    requires IsRun(c, ownerId, s, acts)
    decreases |acts|
  {
    acts == [] || (Advances(s, acts[0]) && AllAdvance(c, ownerId, Apply(c, ownerId, s, acts[0]), acts[1..]))
  }

  lemma {:induction false} AdvancingIsFree(c: Pool.Conf, ownerId: string, s: State, acts: seq<Action>)
    requires IsRun(c, ownerId, s, acts) && AllAdvance(c, ownerId, s, acts)
    ensures Costs(c, ownerId, s, acts) == 0
    decreases |acts|
  {
    if acts != [] {
      AdvanceIsFree(s, acts[0]);
      AdvancingIsFree(c, ownerId, Apply(c, ownerId, s, acts[0]), acts[1..]);
    }
  }

  /** So a run that begins no new work is no longer than the work that was left. */
  lemma AdvancingRunBound(c: Pool.Conf, ownerId: string, s: State, acts: seq<Action>)
    requires c.Valid() && Inv(c, ownerId, s) && QuitClosedOrLater(s)
    requires IsRun(c, ownerId, s, acts) && AllAdvance(c, ownerId, s, acts)
    ensures |acts| <= Work(s)
  {
    StoppingRunBound(c, ownerId, s, acts);
    AdvancingIsFree(c, ownerId, s, acts);
  }

  /** One step closer to the return of Stop. */
  lemma StepToEnd(c: Pool.Conf, ownerId: string, s: State) returns (a: Action)
    requires c.Valid() && Reachable(c, ownerId, s) && Stopping(s)
    ensures Enabled(c, s, a) && Reachable(c, ownerId, Apply(c, ownerId, s, a))
    ensures 0 <= Work(Apply(c, ownerId, s, a)) < Work(s)
    ensures QuitClosedOrLater(Apply(c, ownerId, s, a))
  {
    ReachableInv(c, ownerId, s);
    a := StopNotStuck(c, ownerId, s);
    AdvanceDecreases(c, ownerId, s, a);
    StaysStopping(c, ownerId, s, a);
    WorkNonNegative(Apply(c, ownerId, s, a));
    var _ := Then(c, ownerId, s, a);
  }

  /** Whatever the engine is doing when Stop is called, Stop can return, within as
      many steps as there is work left. */
  lemma {:induction false} StopCanReturn(c: Pool.Conf, ownerId: string, s: State) returns (acts: seq<Action>)
    requires c.Valid() && Reachable(c, ownerId, s) && Stopping(s)
    ensures IsRun(c, ownerId, s, acts) && Exec(c, ownerId, s, acts).proc == ProcStopped
    ensures |acts| <= Work(s)
    decreases Work(s)
  {
    var a := StepToEnd(c, ownerId, s);
    var s' := Apply(c, ownerId, s, a);
    var rest := [];
    if s'.proc != ProcStopped {
      rest := StopCanReturn(c, ownerId, s');
    }
    acts := [a] + rest;
    assert acts[1..] == rest;
  }
}
