/** What the engine guarantees in every run. */
module EngineTheorems {
  import Pool = PoolModel
  import PoolInv = PoolInvariant
  import PoolTheorems
  import Jobs
  import opened Sums
  import opened EngineModel
  import opened EngineInvariant

  lemma {:induction false} RunSnoc(c: Pool.Conf, ownerId: string, s: State, acts: seq<Action>, a: Action)
    requires IsRun(c, ownerId, s, acts) && Enabled(c, Exec(c, ownerId, s, acts), a)
    ensures IsRun(c, ownerId, s, acts + [a])
    ensures Exec(c, ownerId, s, acts + [a]) == Apply(c, ownerId, Exec(c, ownerId, s, acts), a)
    decreases |acts|
  {
    if acts == [] {
      assert ([] + [a])[1..] == [];
    } else {
      assert (acts + [a])[1..] == acts[1..] + [a];
      RunSnoc(c, ownerId, Apply(c, ownerId, s, acts[0]), acts[1..], a);
    }
  }

  lemma Then(c: Pool.Conf, ownerId: string, s: State, a: Action) returns (s': State)
    requires Reachable(c, ownerId, s) && Enabled(c, s, a)
    ensures s' == Apply(c, ownerId, s, a) && Reachable(c, ownerId, s')
  {
    var acts :| IsRun(c, ownerId, INIT, acts) && Exec(c, ownerId, INIT, acts) == s;
    RunSnoc(c, ownerId, INIT, acts, a);
    s' := Apply(c, ownerId, s, a);
  }

  // ------------------------------------------------------ the pool outlives

  /** No submission of a poller finds the pool stopped, so the branch of poll for
      an error of the pool is never taken. */
  lemma PoolOutlivesPollers(c: Pool.Conf, ownerId: string, s: State)
    requires c.Valid() && Reachable(c, ownerId, s)
    ensures forall t | 0 <= t < |s.pool.submits| && !s.pool.submits[t].Returned? :: s.pool.isRunning
    ensures forall t | 0 <= t < |s.pool.submits| :: NotFailed(s.pool.submits[t])
    ensures forall p | 0 <= p < |s.pollers| && Alive(s.pollers[p]) :: s.pool.control == Pool.Running
    ensures forall p | 0 <= p < |s.pollers| :: !s.pollers[p].pc.ReleasingRest?
  {
    ReachableInv(c, ownerId, s);
    forall t | 0 <= t < |s.pool.submits| && !s.pool.submits[t].Returned?
      ensures s.pool.isRunning
    {
      SubmissionSeesRunning(c, s, t);
    }
    forall p | 0 <= p < |s.pollers| && Alive(s.pollers[p])
      ensures s.pool.control == Pool.Running
    {
      AliveMeansRunning(c, s, p);
    }
  }

  /** When the repositories are removed nobody can be using one: no worker
      executes a job, no poller submits one and nothing is being pulled. */
  lemma RepositoriesRemovedLast(c: Pool.Conf, ownerId: string, s: State)
    requires c.Valid() && Reachable(c, ownerId, s) && s.proc in {RemovingRepos, ProcStopped}
    ensures forall w | 0 <= w < |s.pool.workers| :: s.pool.workers[w] == Pool.Gone
    ensures forall p | 0 <= p < |s.pollers| :: !Alive(s.pollers[p])
    ensures s.puller != Pulling
  {
    ReachableInv(c, ownerId, s);
    PoolTheorems.AllGoneAfterStop(c, s.pool);
    forall p | 0 <= p < |s.pollers|
      ensures !Alive(s.pollers[p])
    {
      assert PollerOk(s, s.pollers[p]);
    }
  }

  // ---------------------------------------------------------------- pollers

  /** No two goroutines ever poll the same queue. */
  lemma OnePollerPerQueue(c: Pool.Conf, ownerId: string, s: State, p: nat, q: nat)
    requires c.Valid() && Reachable(c, ownerId, s)
    requires p < |s.pollers| && q < |s.pollers| && p != q
    requires Alive(s.pollers[p]) && Alive(s.pollers[q])
    ensures s.pollers[p].url != s.pollers[q].url
  {
    ReachableInv(c, ownerId, s);
  }

  /** Between refreshes and before shutdown the pollers that run are those in the
      map; no poller has its channels closed twice. */
  lemma RunningIffInMap(c: Pool.Conf, ownerId: string, s: State, p: nat)
    requires c.Valid() && Reachable(c, ownerId, s) && p < |s.pollers|
    ensures NoStopInProgress(s) && s.runner !in {StoppingPollers, RunnerDone} ==>
      (Alive(s.pollers[p]) <==> s.pollers[p].inMap)
    ensures RunnerEnabled(s, RemovePoller(p)) || RunnerEnabled(s, StopPoller(p)) ==> s.pollers[p].stop == NotStopped
  {
    ReachableInv(c, ownerId, s);
    assert PollerOk(s, s.pollers[p]);
  }

  function OwnCount(a: Action, p: nat, f: PollerStep -> nat): nat {
    if a.OfPoller? && a.p == p then f(a.e) else 0
  }

  /** How often poller p does something in a run. */
  function Count(acts: seq<Action>, p: nat, f: PollerStep -> nat): nat {
    if acts == [] then 0
    else Count(acts[1..], p, f) + OwnCount(acts[0], p, f)
  }

  function BeginsPoll(e: PollerStep): nat {
    if e == AskAvailable then 1 else 0
  }

  function Receives(e: PollerStep): nat {
    if e.Receive? then 1 else 0
  }

  function AnyStep(e: PollerStep): nat {
    1
  }

  function MessagesReceived(e: PollerStep): nat {
    if e.Receive? then |e.received| else 0
  }

  lemma QuitStays(c: Pool.Conf, ownerId: string, s: State, a: Action, p: nat)
    requires Enabled(c, s, a) && p < |s.pollers| && PollerQuit(s.pollers[p])
    ensures var s' := Apply(c, ownerId, s, a);
      && p < |s'.pollers| && PollerQuit(s'.pollers[p])
      && (!(a.OfPoller? && a.p == p) ==> s'.pollers[p].pc == s.pollers[p].pc)
  {
    match a
    case Proc(x) =>
    case Runner(r) =>
    case Puller(y) =>
    case OfPoller(q, e) =>
    case StopOf(q, z) =>
    case OfPool(x) =>
    case FinishJob(w, _, _) =>
  }

  /** Polls a poller whose quit is closed may still begin. */
  function PollsToBegin(pc: PollerPc): nat {
    if pc in {Chosen, Asking} then 1 else 0
  }

  /** Receives it may still make. */
  function ReceivesToMake(pc: PollerPc): nat {
    if pc in {Chosen, Asking, Receiving} then 1 else 0
  }

  lemma MovesTo(c: Pool.Conf, s: State, p: nat, e: PollerStep)
    requires p < |s.pollers| && PollerEnabled(s, p, e)
    ensures PollerApply(c, s, p, e).pollers[p].pc == NextPc(c, s, p, e)
  {
  }

  lemma PollsLeft(c: Pool.Conf, ownerId: string, s: State, a: Action, p: nat)
    requires Enabled(c, s, a) && p < |s.pollers| && PollerQuit(s.pollers[p])
    requires p < |Apply(c, ownerId, s, a).pollers|
    requires !(a.OfPoller? && a.p == p) ==> Apply(c, ownerId, s, a).pollers[p].pc == s.pollers[p].pc
    ensures var pc, pc' := s.pollers[p].pc, Apply(c, ownerId, s, a).pollers[p].pc;
      && PollsToBegin(pc') + OwnCount(a, p, BeginsPoll) <= PollsToBegin(pc)
      && ReceivesToMake(pc') + OwnCount(a, p, Receives) <= ReceivesToMake(pc)
      && (pc == Exited ==> pc' == Exited && OwnCount(a, p, AnyStep) == 0)
  {
    if a.OfPoller? && a.p == p {
      MovesTo(c, s, p, a.e);
    }
  }

  /** Once quit is closed a poller begins at most one more poll, and none if it
      was not already past its select; likewise for receives. */
  lemma {:induction false} OneMorePoll(c: Pool.Conf, ownerId: string, s: State, acts: seq<Action>, p: nat)
    requires IsRun(c, ownerId, s, acts) && p < |s.pollers| && PollerQuit(s.pollers[p])
    ensures Count(acts, p, BeginsPoll) <= PollsToBegin(s.pollers[p].pc)
    ensures Count(acts, p, Receives) <= ReceivesToMake(s.pollers[p].pc)
    ensures s.pollers[p].pc == Exited ==> Count(acts, p, AnyStep) == 0
    decreases |acts|
  {
    if acts != [] {
      QuitStays(c, ownerId, s, acts[0], p);
      PollsLeft(c, ownerId, s, acts[0], p);
      OneMorePoll(c, ownerId, Apply(c, ownerId, s, acts[0]), acts[1..], p);
    }
  }

  /** After the Stop of a poller has returned, the poller does nothing. */
  lemma SilentAfterStop(c: Pool.Conf, ownerId: string, s: State, acts: seq<Action>, p: nat)
    requires c.Valid() && Reachable(c, ownerId, s) && IsRun(c, ownerId, s, acts)
    requires p < |s.pollers| && s.pollers[p].stop == StopReturned
    ensures Count(acts, p, AnyStep) == 0
  {
    ReachableInv(c, ownerId, s);
    assert PollerOk(s, s.pollers[p]);
    OneMorePoll(c, ownerId, s, acts, p);
  }

  /** Steps left to a poller whose quit is closed, not counting those for
      messages still to be received. */
  function StepsLeft(pc: PollerPc): nat {
    match pc
    case Exited => 0
    case Top => 1
    case Resting => 2
    case ReleasingRest(_, b) => |b| + 3
    case ReleasingOne(_, b) => 3 * |b| + 3
    case Submitting(_, b, _) => 3 * |b| + 4
    case Offering(_, b) => 3 * |b| + 5
    case Receiving => 6
    case Asking => 7
    case Chosen => 8
  }

  lemma StepsDecrease(c: Pool.Conf, s: State, p: nat, e: PollerStep)
    requires p < |s.pollers| && PollerEnabled(s, p, e) && BatchOk(s, s.pollers[p].pc)
    requires e.Select? ==> PollerQuit(s.pollers[p])
    ensures StepsLeft(NextPc(c, s, p, e)) + 1 <= StepsLeft(s.pollers[p].pc) + 3 * MessagesReceived(e)
  {
  }

  /** A poller whose quit is closed comes to its end: the number of steps it can
      still take is bounded by where it is and by what it still receives. */
  lemma {:induction false} PollerWindsDown(c: Pool.Conf, ownerId: string, s: State, acts: seq<Action>, p: nat)
    requires c.Valid() && Inv(c, ownerId, s) && IsRun(c, ownerId, s, acts)
    requires p < |s.pollers| && PollerQuit(s.pollers[p])
    ensures Count(acts, p, AnyStep) <= StepsLeft(s.pollers[p].pc) + 3 * Count(acts, p, MessagesReceived)
    decreases |acts|
  {
    if acts != [] {
      var a := acts[0];
      QuitStays(c, ownerId, s, a, p);
      InvStep(c, ownerId, s, a);
      PollerWindsDown(c, ownerId, Apply(c, ownerId, s, a), acts[1..], p);
      if a.OfPoller? && a.p == p {
        StepsDecrease(c, s, p, a.e);
        MovesTo(c, s, p, a.e);
      }
    }
  }

  // --------------------------------------------------------------- messages

  /** The message was refused by the pool and given back to its queue: no job
      about it has done anything. */
  ghost predicate GivenBack(s: State, m: Msg) {
    && m in s.status && s.status[m] == Released
    && forall t | 0 <= t < |s.jobs| && s.jobs[t].msg == m ::
         t !in s.pool.executed && s.jobs[t].state == Jobs.Initial && s.jobs[t].effects == []
  }

  /** The end of an execution: the job deletes its message, handles it if it is
      deleted and names the owner, and sends a result if the handling succeeds; its
      effects are the answers given. */
  lemma ExecutionEffects(c: Pool.Conf, ownerId: string, s: State, w: nat, deleteOk: bool, handleOk: bool)
    requires c.Valid() && Reachable(c, ownerId, s) && Enabled(c, s, FinishJob(w, deleteOk, handleOk))
    ensures var t := s.pool.workers[w].job;
      var s' := Apply(c, ownerId, s, FinishJob(w, deleteOk, handleOk));
      var handled := deleteOk && s.jobs[t].message.attribute == Jobs.OwnedBy(ownerId);
      && t < |s'.jobs| && s'.jobs[t].message == s.jobs[t].message
      && s'.jobs[t].state == (if handled && handleOk then Jobs.Finished else Jobs.Error)
      && s'.jobs[t].effects == [Jobs.Delete(deleteOk)]
                               + (if handled then [Jobs.Handle(handleOk)] else [])
                               + (if handled && handleOk then [Jobs.SendResult] else [])
  {
    ReachableInv(c, ownerId, s);
    BusyNotExecuted(c, s, w);
    assert EffectOk(ownerId, s, JobOf(s, w));
  }

  /** Exactly one job is about the message; it has been executed exactly once and
      has ended, with the message deleted before it was handled. */
  ghost predicate Processed(ownerId: string, s: State, m: Msg) {
    && m < |s.messages|
    && m in s.status && s.status[m].Submitted?
    && var t := s.status[m].ticket;
    && t < |s.jobs|
    && (forall u | 0 <= u < |s.jobs| && s.jobs[u].msg == m :: u == t)
    && s.jobs[t].msg == m && s.jobs[t].message == s.messages[m]
    && multiset(s.pool.executed)[t] == 1
    && s.jobs[t].state in {Jobs.Finished, Jobs.Error}
    && Jobs.EndedWith(s.messages[m], ownerId, s.jobs[t].state, s.jobs[t].effects)
  }

  /** The job of the message is still in the buffer of the stopped pool. */
  ghost predicate Stranded(s: State, m: Msg) {
    m in s.status && s.status[m].Submitted? && s.status[m].ticket in s.pool.queue
  }

  lemma TicketCopies(c: Pool.Conf, s: State, t: nat)
    requires PoolInv.Inv(c, s.pool) && s.pool.control == Pool.Stopped
    ensures multiset(s.pool.queue)[t] + multiset(s.pool.executed)[t] == PoolInv.Bit(PoolInv.AcceptedIn(s.pool, t))
  {
    PoolTheorems.AllGoneAfterStop(c, s.pool);
    assert PoolInv.JobConserved(s.pool, t);
    assert Sum(s.pool.workers, PoolInv.HolderOf(t)) == 0;
  }

  lemma FateOfSubmitted(c: Pool.Conf, ownerId: string, s: State, m: Msg)
    requires Inv(c, ownerId, s) && s.pool.control == Pool.Stopped
    requires m in s.status && s.status[m].Submitted?
    ensures Processed(ownerId, s, m) <==> !Stranded(s, m)
  {
    var t := s.status[m].ticket;
    assert JobOk(s, t);
    TicketCopies(c, s, t);
    assert EffectOk(ownerId, s, t);
    forall u | 0 <= u < |s.jobs| && s.jobs[u].msg == m
      ensures u == t
    {
      assert JobOk(s, u);
    }
  }

  lemma FateOfReleased(c: Pool.Conf, ownerId: string, s: State, m: Msg)
    requires Inv(c, ownerId, s) && s.pool.control == Pool.Stopped
    requires m in s.status && s.status[m] == Released
    ensures GivenBack(s, m)
  {
    forall t | 0 <= t < |s.jobs| && s.jobs[t].msg == m
      ensures t !in s.pool.executed && s.jobs[t].state == Jobs.Initial && s.jobs[t].effects == []
    {
      assert JobOk(s, t);
      TicketCopies(c, s, t);
      assert EffectOk(ownerId, s, t);
    }
  }

  lemma NothingHeld(c: Pool.Conf, ownerId: string, s: State, m: Msg)
    requires Inv(c, ownerId, s) && s.proc in {RemovingRepos, ProcStopped} && m < |s.messages|
    ensures m in s.status && !s.status[m].Held?
  {
    forall p | 0 <= p < |s.pollers|
      ensures s.pollers[p].pc == Exited
    {
      assert PollerOk(s, s.pollers[p]);
    }
  }

  /** When the processor has stopped, every message ever received was given back,
      was processed, or is stranded in the buffer, and only one of these. */
  lemma FateOfMessage(c: Pool.Conf, ownerId: string, s: State, m: Msg)
    requires c.Valid() && Reachable(c, ownerId, s)
    requires s.proc in {RemovingRepos, ProcStopped} && m < |s.messages|
    ensures GivenBack(s, m) || Processed(ownerId, s, m) || Stranded(s, m)
    ensures !(GivenBack(s, m) && (Processed(ownerId, s, m) || Stranded(s, m)))
    ensures !(Processed(ownerId, s, m) && Stranded(s, m))
  {
    ReachableInv(c, ownerId, s);
    NothingHeld(c, ownerId, s, m);
    if s.status[m].Submitted? {
      FateOfSubmitted(c, ownerId, s, m);
    } else {
      FateOfReleased(c, ownerId, s, m);
    }
  }

  /** With a minimum of workers or without a buffer nothing is left in limbo. */
  lemma NoMessageInLimbo(c: Pool.Conf, ownerId: string, s: State, m: Msg)
    requires c.Valid() && Reachable(c, ownerId, s)
    requires s.proc in {RemovingRepos, ProcStopped} && m < |s.messages|
    requires 1 <= c.min || c.queueSize == 0
    ensures GivenBack(s, m) || Processed(ownerId, s, m)
  {
    ReachableInv(c, ownerId, s);
    PoolTheorems.DrainOnStop(c, s.pool);
    FateOfMessage(c, ownerId, s, m);
  }
}
