/** The inductive invariant of the worker pool: its two counters and its wait
    group are cardinalities over the phases of the goroutines, and every job is
    in exactly one place. */
module PoolInvariant {
  import opened Sums
  import opened PoolModel

  // ---------------------------------------------------------------- weights

  function Bit(b: bool): int {
    if b then 1 else 0
  }

  /** Counted by numberOfCurrentWorker. */
  function Counted(p: Phase): int {
    Bit(!p.Leaving? && !p.Gone?)
  }

  /** Counted by numberOfIdleWorker: everything counted that is not between the
      two updates of doJob. */
  function IdleCounted(p: Phase): int {
    Bit(!p.Leaving? && !p.Gone? && !p.Busy? && !p.Finished?)
  }

  /** Owes a Done to the wait group. */
  function Live(p: Phase): int {
    Bit(!p.Gone?)
  }

  /** A submission that has raised the counters but not yet created its worker. */
  function MidSpawn(p: SubmitPc): int {
    Bit(p.WgAdd? || p.GoSpawn?)
  }

  function MidGo(p: SubmitPc): int {
    Bit(p.GoSpawn?)
  }

  predicate HoldsJob(p: Phase, t: Ticket) {
    match p
    case Spawned(Some(j)) => j == t
    case Took(j) => j == t
    case Busy(j) => j == t
    case _ => false
  }

  function HolderOf(t: Ticket): Phase -> int {
    p => Bit(HoldsJob(p, t))
  }

  /** Initial workers already counted but not yet created. */
  function PendingCounted(c: Conf, x: Control): int {
    match x
    case StartWg => c.min
    case StartSpawn(left) => left
    case _ => 0
  }

  function PendingWg(x: Control): int {
    if x.StartSpawn? then x.left else 0
  }

  // -------------------------------------------------------------- invariant

  ghost predicate CountersExact(c: Conf, s: State) {
    && s.current == Sum(s.workers, Counted) + Sum(s.submits, MidSpawn) + PendingCounted(c, s.control)
    && s.idle == Sum(s.workers, IdleCounted) + Sum(s.submits, MidSpawn) + PendingCounted(c, s.control)
    && s.wg == Sum(s.workers, Live) + Sum(s.submits, MidGo) + PendingWg(s.control)
  }

  /** Where the callers of Start, Stop and Submit and the goroutine of Start can
      be relative to each other. */
  predicate LifecycleOk(s: State) {
    && (s.isRunning <==> s.control !in {Created, StopFlagged, StopWaiting, Stopped})
    && (s.quit <==> s.control in {StopWaiting, Stopped})
    && (s.run == NotStarted <==> s.control == Created)
    && (s.run in {Closing, Draining, Exited} ==> s.quit)
    && (s.closed <==> s.run in {Draining, Exited})
    && (s.control in {Created, StartCounters} ==> s.workers == [] && s.current == 0)
    && (s.control == Stopped ==> s.wg == 0)
  }

  predicate SubmitterOk(p: SubmitPc, x: Control) {
    && (HoldsReadLock(p) ==> WriterFree(x))
    && (p in {Sending, TrySpawn, WgAdd, GoSpawn} ==> x == Running)
  }

  predicate SubmittersOk(s: State) {
    forall t | 0 <= t < |s.submits| :: SubmitterOk(s.submits[t], s.control)
  }

  predicate WorkerOk(c: Conf, s: State, p: Phase) {
    && (p == Parked ==> s.queue == [] && !s.closed)
    && (p == SawClosed ==> s.queue == [] && s.closed)
    && (p == TickerFired ==> !c.Fixed())
  }

  predicate ChannelOk(c: Conf, s: State) {
    && |s.queue| <= c.queueSize
    && forall w | 0 <= w < |s.workers| :: WorkerOk(c, s, s.workers[w])
  }

  /** The channel can still deliver a job or a parked worker is still served. */
  predicate ChannelAlive(s: State) {
    !s.closed || s.queue != []
  }

  predicate BandOk(c: Conf, s: State) {
    && s.current <= c.max
    && (s.control !in {Created, StartCounters} && ChannelAlive(s) ==> c.min <= s.current)
  }

  /** The number of places a job is in: the buffer, a worker, the past. */
  ghost function Copies(s: State, t: Ticket): int {
    multiset(s.queue)[t] + Sum(s.workers, HolderOf(t)) + multiset(s.executed)[t]
  }

  predicate AcceptedIn(s: State, t: Ticket) {
    t < |s.submits| && WasAccepted(s.submits[t])
  }

  ghost predicate JobConserved(s: State, t: Ticket) {
    Copies(s, t) == Bit(AcceptedIn(s, t))
  }

  ghost predicate JobsConserved(s: State) {
    forall t: Ticket :: JobConserved(s, t)
  }

  ghost predicate Inv(c: Conf, s: State) {
    && LifecycleOk(s)
    && SubmittersOk(s)
    && ChannelOk(c, s)
    && CountersExact(c, s)
    && BandOk(c, s)
    && JobsConserved(s)
  }

  // ------------------------------------------------------ sums under actions

  lemma {:induction false} SumWakeAll(ws: seq<Phase>, f: Phase -> int)
    requires f(Parked) == f(SawClosed)
    ensures Sum(WakeAll(ws), f) == Sum(ws, f)
  {
    if ws != [] {
      var n := |ws| - 1;
      assert WakeAll(ws)[..n] == WakeAll(ws[..n]);
      SumWakeAll(ws[..n], f);
    }
  }

  // -------------------------------------------------------- one action keeps

  lemma SubmitLifecycle(c: Conf, s: State, t: Ticket, e: SubmitStep)
    requires LifecycleOk(s) && t < |s.submits| && SubmitEnabled(c, s, s.submits[t], e)
    requires SubmitterOk(s.submits[t], s.control)
    ensures LifecycleOk(SubmitApply(c, s, t, e))
  {
  }

  lemma WorkerLifecycle(c: Conf, s: State, w: nat, k: WorkerStep)
    requires LifecycleOk(s) && w < |s.workers| && WorkerEnabled(c, s, s.workers[w], k)
    requires k.Done? ==> s.control != Stopped
    ensures LifecycleOk(WorkerApply(c, s, w, k))
  {
  }

  lemma LifecycleStep(c: Conf, s: State, a: Action)
    requires LifecycleOk(s) && Enabled(c, s, a)
    requires a.ByWorker? && a.k.Done? ==> s.control != Stopped
    requires a.BySubmit? ==> SubmitterOk(s.submits[a.t], s.control)
    ensures LifecycleOk(Apply(c, s, a))
  {
    match a
    case ByCaller(x) =>
    case ByStarter(x) =>
    case SubmitCall =>
    case BySubmit(t, e) => SubmitLifecycle(c, s, t, e);
    case ByWorker(w, k) => WorkerLifecycle(c, s, w, k);
  }

  /** After Stop has returned no worker is left that could call Done. */
  lemma NoDoneAfterStop(c: Conf, s: State, w: nat)
    requires LifecycleOk(s) && CountersExact(c, s) && s.control == Stopped && w < |s.workers|
    ensures s.workers[w] == Gone
  {
    SumBounds(s.workers, Live);
    SumBounds(s.submits, MidGo);
    assert Live(s.workers[w]) <= 0;
  }

  lemma ControlSubmitters(c: Conf, s: State, x: ControlStep)
    requires LifecycleOk(s) && SubmittersOk(s) && ControlEnabled(s, x)
    ensures SubmittersOk(ControlApply(c, s, x))
  {
    forall t | 0 <= t < |s.submits|
      ensures SubmitterOk(s.submits[t], ControlApply(c, s, x).control)
    {
      assert SubmitterOk(s.submits[t], s.control);
    }
  }

  lemma SubmitSubmitters(c: Conf, s: State, t: Ticket, e: SubmitStep)
    requires LifecycleOk(s) && SubmittersOk(s) && t < |s.submits| && SubmitEnabled(c, s, s.submits[t], e)
    ensures SubmittersOk(SubmitApply(c, s, t, e))
  {
    assert SubmitterOk(s.submits[t], s.control);
    assert SubmitterOk(NextSubmit(c, s, s.submits[t], e), s.control);
    assert SubmitApply(c, s, t, e).submits == s.submits[t := NextSubmit(c, s, s.submits[t], e)];
  }

  lemma SubmittersStep(c: Conf, s: State, a: Action)
    requires LifecycleOk(s) && SubmittersOk(s) && Enabled(c, s, a)
    ensures SubmittersOk(Apply(c, s, a))
  {
    match a
    case ByCaller(x) => ControlSubmitters(c, s, x);
    case ByStarter(x) =>
    case SubmitCall =>
    case BySubmit(t, e) => SubmitSubmitters(c, s, t, e);
    case ByWorker(w, k) =>
  }

  lemma SubmitChannel(c: Conf, s: State, t: Ticket, e: SubmitStep)
    requires t < |s.submits| && SubmitEnabled(c, s, s.submits[t], e)
    requires ChannelOk(c, s) && LifecycleOk(s) && SubmitterOk(s.submits[t], s.control)
    ensures ChannelOk(c, SubmitApply(c, s, t, e))
  {
    var s' := SubmitApply(c, s, t, e);
    forall w | 0 <= w < |s'.workers|
      ensures WorkerOk(c, s', s'.workers[w])
    {
      assert w < |s.workers| ==> WorkerOk(c, s, s.workers[w]);
    }
  }

  lemma WorkerChannel(c: Conf, s: State, w: nat, k: WorkerStep)
    requires w < |s.workers| && WorkerEnabled(c, s, s.workers[w], k)
    requires ChannelOk(c, s)
    ensures ChannelOk(c, WorkerApply(c, s, w, k))
  {
    var s' := WorkerApply(c, s, w, k);
    forall v | 0 <= v < |s'.workers|
      ensures WorkerOk(c, s', s'.workers[v])
    {
      assert WorkerOk(c, s, s.workers[v]);
    }
  }

  lemma ChannelStep(c: Conf, s: State, a: Action)
    requires LifecycleOk(s) && SubmittersOk(s) && ChannelOk(c, s) && Enabled(c, s, a)
    ensures ChannelOk(c, Apply(c, s, a))
  {
    match a
    case ByCaller(x) =>
      assert forall w | 0 <= w < |s.workers| :: WorkerOk(c, s, s.workers[w]);
    case ByStarter(x) =>
      assert forall w | 0 <= w < |s.workers| :: WorkerOk(c, s, s.workers[w]);
    case SubmitCall =>
      assert forall w | 0 <= w < |s.workers| :: WorkerOk(c, s, s.workers[w]);
    case BySubmit(t, e) =>
      assert SubmitterOk(s.submits[t], s.control);
      SubmitChannel(c, s, t, e);
    case ByWorker(w, k) => WorkerChannel(c, s, w, k);
  }

  lemma SpawnOneCounters(c: Conf, s: State)
    requires ControlEnabled(s, StartSpawnOne) && CountersExact(c, s)
    ensures CountersExact(c, ControlApply(c, s, StartSpawnOne))
  {
    SumAppend(s.workers, Spawned(None), Counted);
    SumAppend(s.workers, Spawned(None), IdleCounted);
    SumAppend(s.workers, Spawned(None), Live);
  }

  lemma ControlCounters(c: Conf, s: State, x: ControlStep)
    requires ControlEnabled(s, x) && CountersExact(c, s)
    ensures CountersExact(c, ControlApply(c, s, x))
  {
    if x.StartSpawnOne? {
      SpawnOneCounters(c, s);
    } else {
      var s' := ControlApply(c, s, x);
      assert s'.workers == s.workers && s'.submits == s.submits;
    }
  }

  lemma RunCounters(c: Conf, s: State, x: RunStep)
    requires RunEnabled(s, x) && CountersExact(c, s)
    ensures CountersExact(c, RunApply(s, x))
  {
    SumWakeAll(s.workers, Counted);
    SumWakeAll(s.workers, IdleCounted);
    SumWakeAll(s.workers, Live);
  }

  lemma HandoffCounters(c: Conf, s: State, t: Ticket, w: nat)
    requires t < |s.submits| && SubmitEnabled(c, s, s.submits[t], SendHandoff(w)) && CountersExact(c, s)
    ensures CountersExact(c, SubmitApply(c, s, t, SendHandoff(w)))
  {
    SumUpdate(s.submits, t, Returning(Accepted), MidSpawn);
    SumUpdate(s.submits, t, Returning(Accepted), MidGo);
    SumUpdate(s.workers, w, Took(t), Counted);
    SumUpdate(s.workers, w, Took(t), IdleCounted);
    SumUpdate(s.workers, w, Took(t), Live);
  }

  lemma GoCounters(c: Conf, s: State, t: Ticket)
    requires t < |s.submits| && SubmitEnabled(c, s, s.submits[t], GoWorker) && CountersExact(c, s)
    ensures CountersExact(c, SubmitApply(c, s, t, GoWorker))
  {
    SumUpdate(s.submits, t, Returning(Accepted), MidSpawn);
    SumUpdate(s.submits, t, Returning(Accepted), MidGo);
    SumAppend(s.workers, Spawned(Some(t)), Counted);
    SumAppend(s.workers, Spawned(Some(t)), IdleCounted);
    SumAppend(s.workers, Spawned(Some(t)), Live);
  }

  lemma QuietCounters(c: Conf, s: State, t: Ticket, e: SubmitStep)
    requires t < |s.submits| && SubmitEnabled(c, s, s.submits[t], e) && CountersExact(c, s)
    requires !e.SendHandoff? && !e.GoWorker?
    ensures CountersExact(c, SubmitApply(c, s, t, e))
  {
    SumUpdate(s.submits, t, NextSubmit(c, s, s.submits[t], e), MidSpawn);
    SumUpdate(s.submits, t, NextSubmit(c, s, s.submits[t], e), MidGo);
  }

  lemma SubmitCounters(c: Conf, s: State, t: Ticket, e: SubmitStep)
    requires t < |s.submits| && SubmitEnabled(c, s, s.submits[t], e) && CountersExact(c, s)
    ensures CountersExact(c, SubmitApply(c, s, t, e))
  {
    if e.SendHandoff? {
      HandoffCounters(c, s, t, e.w);
    } else if e.GoWorker? {
      GoCounters(c, s, t);
    } else {
      QuietCounters(c, s, t, e);
    }
  }

  predicate DoJobStep(k: WorkerStep) {
    k in {Begin, StartJob, FinishJob, RestoreIdle}
  }

  lemma DoJobCounters(c: Conf, s: State, w: nat, k: WorkerStep)
    requires w < |s.workers| && WorkerEnabled(c, s, s.workers[w], k) && CountersExact(c, s)
    requires DoJobStep(k)
    ensures CountersExact(c, WorkerApply(c, s, w, k))
  {
    var p := NextPhase(c, s, s.workers[w], k);
    SumUpdate(s.workers, w, p, Counted);
    SumUpdate(s.workers, w, p, IdleCounted);
    SumUpdate(s.workers, w, p, Live);
  }

  lemma LoopCounters(c: Conf, s: State, w: nat, k: WorkerStep)
    requires w < |s.workers| && WorkerEnabled(c, s, s.workers[w], k) && CountersExact(c, s)
    requires !DoJobStep(k)
    ensures CountersExact(c, WorkerApply(c, s, w, k))
  {
    var p := NextPhase(c, s, s.workers[w], k);
    SumUpdate(s.workers, w, p, Counted);
    SumUpdate(s.workers, w, p, IdleCounted);
    SumUpdate(s.workers, w, p, Live);
  }

  lemma CountersStep(c: Conf, s: State, a: Action)
    requires CountersExact(c, s) && Enabled(c, s, a)
    ensures CountersExact(c, Apply(c, s, a))
  {
    match a
    case ByCaller(x) => ControlCounters(c, s, x);
    case ByStarter(x) => RunCounters(c, s, x);
    case SubmitCall =>
      SumAppend(s.submits, Holding, MidSpawn);
      SumAppend(s.submits, Holding, MidGo);
    case BySubmit(t, e) => SubmitCounters(c, s, t, e);
    case ByWorker(w, k) =>
      if DoJobStep(k) {
        DoJobCounters(c, s, w, k);
      } else {
        LoopCounters(c, s, w, k);
      }
  }

  lemma BandStep(c: Conf, s: State, a: Action)
    requires c.Valid() && LifecycleOk(s) && SubmittersOk(s) && ChannelOk(c, s) && BandOk(c, s) && Enabled(c, s, a)
    ensures BandOk(c, Apply(c, s, a))
  {
    match a
    case BySubmit(t, e) => assert SubmitterOk(s.submits[t], s.control);
    case ByWorker(w, k) => assert WorkerOk(c, s, s.workers[w]);
    case _ =>
  }

  lemma HandoffJob(c: Conf, s: State, u: Ticket, w: nat, t: Ticket)
    requires u < |s.submits| && SubmitEnabled(c, s, s.submits[u], SendHandoff(w)) && JobConserved(s, t)
    ensures JobConserved(SubmitApply(c, s, u, SendHandoff(w)), t)
  {
    SumUpdate(s.workers, w, Took(u), HolderOf(t));
  }

  lemma GoJob(c: Conf, s: State, u: Ticket, t: Ticket)
    requires u < |s.submits| && SubmitEnabled(c, s, s.submits[u], GoWorker) && JobConserved(s, t)
    ensures JobConserved(SubmitApply(c, s, u, GoWorker), t)
  {
    SumAppend(s.workers, Spawned(Some(u)), HolderOf(t));
  }

  lemma BufferJob(c: Conf, s: State, u: Ticket, t: Ticket)
    requires u < |s.submits| && SubmitEnabled(c, s, s.submits[u], SendBuffer) && JobConserved(s, t)
    ensures JobConserved(SubmitApply(c, s, u, SendBuffer), t)
  {
  }

  lemma SameJobs(s: State, s': State, t: Ticket)
    requires JobConserved(s, t) && AcceptedIn(s', t) == AcceptedIn(s, t)
    requires s'.queue == s.queue && s'.workers == s.workers && s'.executed == s.executed
    ensures JobConserved(s', t)
  {
  }

  /** A step of a submission that moves no job accepts none. */
  lemma QuietAnswer(c: Conf, s: State, u: Ticket, e: SubmitStep)
    requires u < |s.submits| && SubmitEnabled(c, s, s.submits[u], e)
    requires !e.SendHandoff? && !e.GoWorker? && !e.SendBuffer?
    ensures forall t :: AcceptedIn(SubmitApply(c, s, u, e), t) == AcceptedIn(s, t)
  {
    var p := NextSubmit(c, s, s.submits[u], e);
    assert SubmitApply(c, s, u, e).submits == s.submits[u := p];
    assert WasAccepted(p) == WasAccepted(s.submits[u]);
  }

  lemma QuietSubmit(c: Conf, s: State, u: Ticket, e: SubmitStep, t: Ticket)
    requires u < |s.submits| && SubmitEnabled(c, s, s.submits[u], e) && JobConserved(s, t)
    requires !e.SendHandoff? && !e.GoWorker? && !e.SendBuffer?
    ensures JobConserved(SubmitApply(c, s, u, e), t)
  {
    var s' := SubmitApply(c, s, u, e);
    assert s'.queue == s.queue && s'.workers == s.workers && s'.executed == s.executed;
    QuietAnswer(c, s, u, e);
    SameJobs(s, s', t);
  }

  lemma SubmitJob(c: Conf, s: State, u: Ticket, e: SubmitStep, t: Ticket)
    requires u < |s.submits| && SubmitEnabled(c, s, s.submits[u], e) && JobConserved(s, t)
    ensures JobConserved(SubmitApply(c, s, u, e), t)
  {
    if e.SendHandoff? {
      HandoffJob(c, s, u, e.w, t);
    } else if e.GoWorker? {
      GoJob(c, s, u, t);
    } else if e.SendBuffer? {
      BufferJob(c, s, u, t);
    } else {
      QuietSubmit(c, s, u, e, t);
    }
  }

  lemma ReceiveJob(c: Conf, s: State, w: nat, t: Ticket)
    requires w < |s.workers| && WorkerEnabled(c, s, s.workers[w], Receive) && JobConserved(s, t)
    ensures JobConserved(WorkerApply(c, s, w, Receive), t)
  {
    SumUpdate(s.workers, w, NextPhase(c, s, s.workers[w], Receive), HolderOf(t));
    if s.queue != [] {
      assert s.queue == [s.queue[0]] + s.queue[1..];
    }
  }

  lemma FinishedJob(c: Conf, s: State, w: nat, t: Ticket)
    requires w < |s.workers| && WorkerEnabled(c, s, s.workers[w], FinishJob) && JobConserved(s, t)
    ensures JobConserved(WorkerApply(c, s, w, FinishJob), t)
  {
    SumUpdate(s.workers, w, Finished, HolderOf(t));
  }

  lemma DoJobJob(c: Conf, s: State, w: nat, k: WorkerStep, t: Ticket)
    requires w < |s.workers| && WorkerEnabled(c, s, s.workers[w], k) && JobConserved(s, t)
    requires DoJobStep(k) && !k.FinishJob?
    ensures JobConserved(WorkerApply(c, s, w, k), t)
  {
    SumUpdate(s.workers, w, NextPhase(c, s, s.workers[w], k), HolderOf(t));
  }

  /** Worker w has moved to p, which holds the same job. */
  lemma WorkerMoved(s: State, s': State, w: nat, p: Phase, t: Ticket)
    requires JobConserved(s, t) && w < |s.workers| && HoldsJob(p, t) == HoldsJob(s.workers[w], t)
    requires s'.workers == s.workers[w := p]
    requires s'.queue == s.queue && s'.submits == s.submits && s'.executed == s.executed
    ensures JobConserved(s', t)
  {
    SumUpdate(s.workers, w, p, HolderOf(t));
  }

  lemma QuietWorker(c: Conf, s: State, w: nat, k: WorkerStep, t: Ticket)
    requires w < |s.workers| && WorkerEnabled(c, s, s.workers[w], k) && JobConserved(s, t)
    requires !k.Receive? && !DoJobStep(k)
    ensures JobConserved(WorkerApply(c, s, w, k), t)
  {
    var p := NextPhase(c, s, s.workers[w], k);
    assert HoldsJob(p, t) == HoldsJob(s.workers[w], t);
    WorkerMoved(s, WorkerApply(c, s, w, k), w, p, t);
  }

  lemma WorkerJob(c: Conf, s: State, w: nat, k: WorkerStep, t: Ticket)
    requires w < |s.workers| && WorkerEnabled(c, s, s.workers[w], k) && JobConserved(s, t)
    ensures JobConserved(WorkerApply(c, s, w, k), t)
  {
    if k.Receive? {
      ReceiveJob(c, s, w, t);
    } else if k.FinishJob? {
      FinishedJob(c, s, w, t);
    } else if DoJobStep(k) {
      DoJobJob(c, s, w, k, t);
    } else {
      QuietWorker(c, s, w, k, t);
    }
  }

  lemma ControlJob(c: Conf, s: State, x: ControlStep, t: Ticket)
    requires ControlEnabled(s, x) && JobConserved(s, t)
    ensures JobConserved(ControlApply(c, s, x), t)
  {
    SumAppend(s.workers, Spawned(None), HolderOf(t));
  }

  lemma RunJob(c: Conf, s: State, x: RunStep, t: Ticket)
    requires RunEnabled(s, x) && JobConserved(s, t)
    ensures JobConserved(RunApply(s, x), t)
  {
    SumWakeAll(s.workers, HolderOf(t));
  }

  lemma JobStep(c: Conf, s: State, a: Action, t: Ticket)
    requires JobConserved(s, t) && Enabled(c, s, a)
    ensures JobConserved(Apply(c, s, a), t)
  {
    match a
    case ByCaller(x) => ControlJob(c, s, x, t);
    case ByStarter(x) => RunJob(c, s, x, t);
    case SubmitCall =>
    case BySubmit(u, e) => SubmitJob(c, s, u, e, t);
    case ByWorker(w, k) => WorkerJob(c, s, w, k, t);
  }

  lemma JobsStep(c: Conf, s: State, a: Action)
    requires JobsConserved(s) && Enabled(c, s, a)
    ensures JobsConserved(Apply(c, s, a))
  {
    forall t: Ticket
      ensures JobConserved(Apply(c, s, a), t)
    {
      assert JobConserved(s, t);
      JobStep(c, s, a, t);
    }
  }

  lemma InvStep(c: Conf, s: State, a: Action)
    requires c.Valid() && Inv(c, s) && Enabled(c, s, a)
    ensures Inv(c, Apply(c, s, a))
  {
    if a.ByWorker? && s.control == Stopped {
      NoDoneAfterStop(c, s, a.w);
    }
    LifecycleStep(c, s, a);
    SubmittersStep(c, s, a);
    ChannelStep(c, s, a);
    CountersStep(c, s, a);
    BandStep(c, s, a);
    JobsStep(c, s, a);
  }

  lemma InvInit(c: Conf)
    requires c.Valid()
    ensures Inv(c, INIT)
  {
  }

  lemma {:induction false} InvRun(c: Conf, s: State, acts: seq<Action>)
    requires c.Valid() && Inv(c, s) && IsRun(c, s, acts)
    ensures Inv(c, Exec(c, s, acts))
    decreases |acts|
  {
    if acts != [] {
      InvStep(c, s, acts[0]);
      InvRun(c, Apply(c, s, acts[0]), acts[1..]);
    }
  }

  lemma ReachableInv(c: Conf, s: State)
    requires c.Valid() && Reachable(c, s)
    ensures Inv(c, s)
  {
    var acts :| IsRun(c, INIT, acts) && Exec(c, INIT, acts) == s;
    InvInit(c);
    InvRun(c, INIT, acts);
  }
}
