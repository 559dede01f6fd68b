/** The worker pool as an object.  Every method that is one critical section or
    one channel operation is proved to be one action of PoolModel; Start, Stop,
    Submit and the bodies of the worker are sequences of them, with arbitrary
    actions of the other goroutines in between. */
module WorkerPools {
  import opened PoolModel
  import opened PoolInvariant
  import opened PoolTheorems

  newtype int32 = x: int | -0x8000_0000 <= x < 0x8000_0000

  const DEFAULT_MAX_WORKERS: int32 := 12
  const DEFAULT_MIN_WORKERS: int32 := 4
  const DEFAULT_QUEUE_SIZE: int32 := 0
  const DEFAULT_KEEP_ALIVE_MILLIS: int := 6000
  const DEFAULT_MONITORING_MILLIS: int := 15000

  datatype PoolConf = PoolConf(
    maxNumberOfWorker: int32,
    minNumberOfWorker: int32,
    queueSize: int32,
    keepAliveTimeInMillis: int,
    monitoringPeriodInMillis: int)

  /** A configuration New leaves as it is. */
  predicate Acceptable(p: PoolConf) {
    && 1 <= p.maxNumberOfWorker
    && 0 <= p.minNumberOfWorker <= p.maxNumberOfWorker
    && 0 <= p.queueSize
    && 1 <= p.keepAliveTimeInMillis
    && 1 <= p.monitoringPeriodInMillis
  }

  function ConfOf(p: PoolConf): Conf
    requires Acceptable(p)
  {
    Conf(p.minNumberOfWorker as nat, p.maxNumberOfWorker as nat, p.queueSize as nat)
  }

  /** The goroutine on whose behalf a method runs. */
  datatype Role = Caller | Submitter(t: Ticket) | Work(w: nat)

  predicate ByOther(me: Role, a: Action) {
    match me
    case Caller => !a.ByCaller?
    case Submitter(t) => !(a.BySubmit? && a.t == t)
    case Work(w) => !(a.ByWorker? && a.w == w)
  }

  ghost predicate Leads(c: Conf, s: State, s': State) {
    exists acts :: IsRun(c, s, acts) && Exec(c, s, acts) == s'
  }

  ghost predicate OthersLead(c: Conf, s: State, s': State, me: Role) {
    exists acts :: IsRun(c, s, acts) && Exec(c, s, acts) == s' && forall i | 0 <= i < |acts| :: ByOther(me, acts[i])
  }

  lemma LeadsSelf(c: Conf, s: State, me: Role)
    ensures Leads(c, s, s) && OthersLead(c, s, s, me)
  {
    var acts: seq<Action> := [];
    assert IsRun(c, s, acts) && Exec(c, s, acts) == s;
  }

  lemma LeadsStep(c: Conf, s: State, s': State, a: Action)
    requires Leads(c, s, s') && Enabled(c, s', a)
    ensures Leads(c, s, Apply(c, s', a))
  {
    var acts :| IsRun(c, s, acts) && Exec(c, s, acts) == s';
    RunSnoc(c, s, acts, a);
  }

  lemma LeadsTrans(c: Conf, s: State, s': State, s'': State)
    requires Leads(c, s, s') && Leads(c, s', s'')
    ensures Leads(c, s, s'')
  {
    var first :| IsRun(c, s, first) && Exec(c, s, first) == s';
    var second :| IsRun(c, s', second) && Exec(c, s', second) == s'';
    RunAppend(c, s, first, second);
  }

  /** Nobody else moves the caller of Start or Stop. */
  lemma {:induction false} CallerFrame(c: Conf, s: State, acts: seq<Action>)
    requires IsRun(c, s, acts) && forall i | 0 <= i < |acts| :: ByOther(Caller, acts[i])
    ensures Exec(c, s, acts).control == s.control && Exec(c, s, acts).isRunning == s.isRunning
    decreases |acts|
  {
    if acts != [] {
      CallerFrame(c, Apply(c, s, acts[0]), acts[1..]);
    }
  }

  lemma SubmitterFrameStep(c: Conf, s: State, a: Action, t: Ticket)
    requires LifecycleOk(s) && SubmittersOk(s) && Enabled(c, s, a) && ByOther(Submitter(t), a)
    requires t < |s.submits| && HoldsReadLock(s.submits[t])
    ensures var s' := Apply(c, s, a);
      && t < |s'.submits| && s'.submits[t] == s.submits[t]
      && s'.control == s.control && s'.isRunning == s.isRunning
  {
    assert SubmitterOk(s.submits[t], s.control);
    match a
    case ByCaller(x) =>
    case ByStarter(x) =>
    case SubmitCall =>
    case BySubmit(u, e) => assert SubmitApply(c, s, u, e).submits == s.submits[u := NextSubmit(c, s, s.submits[u], e)];
    case ByWorker(w, k) =>
  }

  /** While a submission holds the read lock nobody moves it, starts or stops
      the pool. */
  lemma {:induction false} SubmitterFrame(c: Conf, s: State, acts: seq<Action>, t: Ticket)
    requires c.Valid() && Inv(c, s) && IsRun(c, s, acts)
    requires forall i | 0 <= i < |acts| :: ByOther(Submitter(t), acts[i])
    requires t < |s.submits| && HoldsReadLock(s.submits[t])
    ensures var s' := Exec(c, s, acts);
      && t < |s'.submits| && s'.submits[t] == s.submits[t]
      && s'.control == s.control && s'.isRunning == s.isRunning
    decreases |acts|
  {
    if acts != [] {
      SubmitterFrameStep(c, s, acts[0], t);
      InvStep(c, s, acts[0]);
      SubmitterFrame(c, Apply(c, s, acts[0]), acts[1..], t);
    }
  }

  lemma WorkerFrameStep(c: Conf, s: State, a: Action, w: nat)
    requires Enabled(c, s, a) && ByOther(Work(w), a)
    requires w < |s.workers| && s.workers[w] != Parked
    ensures w < |Apply(c, s, a).workers| && Apply(c, s, a).workers[w] == s.workers[w]
  {
    match a
    case ByCaller(x) =>
    case ByStarter(x) =>
    case SubmitCall =>
    case BySubmit(t, e) =>
    case ByWorker(v, k) => assert WorkerApply(c, s, v, k).workers == s.workers[v := NextPhase(c, s, s.workers[v], k)];
  }

  lemma ExecutedGrows(c: Conf, s: State, a: Action)
    requires Enabled(c, s, a)
    ensures s.executed <= Apply(c, s, a).executed
  {
  }

  /** Nobody moves a worker that is not parked. */
  lemma {:induction false} WorkerFrame(c: Conf, s: State, acts: seq<Action>, w: nat)
    requires IsRun(c, s, acts) && forall i | 0 <= i < |acts| :: ByOther(Work(w), acts[i])
    requires w < |s.workers| && s.workers[w] != Parked
    ensures w < |Exec(c, s, acts).workers| && Exec(c, s, acts).workers[w] == s.workers[w]
    ensures s.executed <= Exec(c, s, acts).executed
    decreases |acts|
  {
    if acts != [] {
      WorkerFrameStep(c, s, acts[0], w);
      ExecutedGrows(c, s, acts[0]);
      WorkerFrame(c, Apply(c, s, acts[0]), acts[1..], w);
    }
  }

  /** Where a worker can be that has parked and has not moved since. */
  predicate OnceParked(p: Phase) {
    p == Parked || p.Took? || p == SawClosed
  }

  lemma ParkedFrameStep(c: Conf, s: State, a: Action, w: nat)
    requires Enabled(c, s, a) && ByOther(Work(w), a)
    requires w < |s.workers| && OnceParked(s.workers[w])
    ensures w < |Apply(c, s, a).workers| && OnceParked(Apply(c, s, a).workers[w])
  {
    match a
    case ByCaller(x) =>
    case ByStarter(x) =>
    case SubmitCall =>
    case BySubmit(t, e) =>
    case ByWorker(v, k) => assert WorkerApply(c, s, v, k).workers == s.workers[v := NextPhase(c, s, s.workers[v], k)];
  }

  /** Others can only hand a job to a parked worker or close the channel. */
  lemma {:induction false} ParkedFrame(c: Conf, s: State, acts: seq<Action>, w: nat)
    requires IsRun(c, s, acts) && forall i | 0 <= i < |acts| :: ByOther(Work(w), acts[i])
    requires w < |s.workers| && OnceParked(s.workers[w])
    ensures w < |Exec(c, s, acts).workers| && OnceParked(Exec(c, s, acts).workers[w])
    decreases |acts|
  {
    if acts != [] {
      ParkedFrameStep(c, s, acts[0], w);
      ParkedFrame(c, Apply(c, s, acts[0]), acts[1..], w);
    }
  }

  lemma DrainedStep(c: Conf, s: State, a: Action)
    requires LifecycleOk(s) && SubmittersOk(s) && s.closed && s.queue == [] && Enabled(c, s, a)
    ensures Apply(c, s, a).closed && Apply(c, s, a).queue == []
  {
    if a.BySubmit? {
      assert SubmitterOk(s.submits[a.t], s.control);
    }
  }

  lemma {:induction false} DrainedRun(c: Conf, s: State, acts: seq<Action>)
    requires c.Valid() && Inv(c, s) && s.closed && s.queue == [] && IsRun(c, s, acts)
    ensures Exec(c, s, acts).closed && Exec(c, s, acts).queue == []
    decreases |acts|
  {
    if acts != [] {
      DrainedStep(c, s, acts[0]);
      InvStep(c, s, acts[0]);
      DrainedRun(c, Apply(c, s, acts[0]), acts[1..]);
    }
  }

  /** A channel that is closed and drained stays so. */
  lemma StaysDrained(c: Conf, s: State, s': State)
    requires c.Valid() && Reachable(c, s) && Leads(c, s, s') && s.closed && s.queue == []
    ensures s'.closed && s'.queue == []
  {
    ReachableInv(c, s);
    var acts :| IsRun(c, s, acts) && Exec(c, s, acts) == s';
    DrainedRun(c, s, acts);
  }

  /** The case of its select that a worker takes in a turn. */
  datatype Case = Received | Expired | Blocked(woken: Phase)

  class WorkerPool {
    const poolConf: PoolConf
    var numberOfCurrentWorker: int32
    var numberOfIdleWorker: int32
    var jobQueue: seq<Ticket>
    var jobQueueClosed: bool
    var quitClosed: bool
    var isRunning: bool
    var workersWg: int
    // The workers and where they are; the runtime keeps the parked ones in the
    // receive queue of the channel.
    var workers: seq<Phase>
    // The calls of Submit and where they are; a job is named after its call.
    var submits: seq<SubmitPc>
    ghost var control: Control
    ghost var run: RunPc
    ghost var executed: seq<Ticket>

    function C(): Conf
      requires Acceptable(poolConf)
    {
      ConfOf(poolConf)
    }

    ghost function State(): State
      reads this
    {
      PoolModel.State(numberOfCurrentWorker as int, numberOfIdleWorker as int, jobQueue, jobQueueClosed,
                      quitClosed, isRunning, workersWg, control, run, workers, submits, executed)
    }

    ghost predicate Valid()
      reads this
    {
      Acceptable(poolConf) && Reachable(C(), State())
    }

    /** New: out-of-range fields get their defaults, one after the other. */
    constructor (conf: PoolConf)
      ensures Valid() && State() == INIT
      ensures Acceptable(conf) ==> poolConf == conf
      ensures poolConf.maxNumberOfWorker ==
        if conf.maxNumberOfWorker <= 0 then 12 else conf.maxNumberOfWorker
      ensures 0 <= conf.minNumberOfWorker <= poolConf.maxNumberOfWorker ==>
        poolConf.minNumberOfWorker == conf.minNumberOfWorker
      ensures conf.minNumberOfWorker > poolConf.maxNumberOfWorker ==>
        poolConf.minNumberOfWorker == poolConf.maxNumberOfWorker
      ensures conf.minNumberOfWorker < 0 ==>
        poolConf.minNumberOfWorker ==
          if 4 <= poolConf.maxNumberOfWorker then 4
          else poolConf.maxNumberOfWorker
      ensures poolConf.queueSize == if conf.queueSize < 0 then 0 else conf.queueSize
      ensures poolConf.keepAliveTimeInMillis ==
        if conf.keepAliveTimeInMillis <= 0 then 6000 else conf.keepAliveTimeInMillis
      ensures poolConf.monitoringPeriodInMillis ==
        if conf.monitoringPeriodInMillis <= 0 then 15000 else conf.monitoringPeriodInMillis
    {
      var p := conf;
      if p.maxNumberOfWorker <= 0 {
        p := p.(maxNumberOfWorker := DEFAULT_MAX_WORKERS);
      }
      if p.minNumberOfWorker < 0 {
        p := p.(minNumberOfWorker := DEFAULT_MIN_WORKERS);
      }
      if p.minNumberOfWorker > p.maxNumberOfWorker {
        p := p.(minNumberOfWorker := p.maxNumberOfWorker);
      }
      if p.queueSize < 0 {
        p := p.(queueSize := DEFAULT_QUEUE_SIZE);
      }
      if p.keepAliveTimeInMillis <= 0 {
        p := p.(keepAliveTimeInMillis := DEFAULT_KEEP_ALIVE_MILLIS);
      }
      if p.monitoringPeriodInMillis <= 0 {
        p := p.(monitoringPeriodInMillis := DEFAULT_MONITORING_MILLIS);
      }
      poolConf := p;
      numberOfCurrentWorker, numberOfIdleWorker := 0, 0;
      jobQueue, jobQueueClosed, quitClosed, isRunning := [], false, false, false;
      workersWg, workers := 0, [];
      control, run, submits, executed := Created, NotStarted, [], [];
      new;
      ReachableInit(C());
    }

    // ------------------------------------------------------- interference

    /** Any number of actions of the other goroutines. */
    method Others(ghost me: Role)
      requires Valid()
      modifies this
      ensures Valid() && OthersLead(C(), old(State()), State(), me)
    {
      LeadsSelf(C(), State(), me);
    }

    method OthersWhileCaller()
      requires Valid()
      modifies this
      ensures Valid() && Leads(C(), old(State()), State())
      ensures control == old(control) && isRunning == old(isRunning)
    {
      ghost var s := State();
      Others(Caller);
      ghost var acts :| IsRun(C(), s, acts) && Exec(C(), s, acts) == State()
        && forall i | 0 <= i < |acts| :: ByOther(Caller, acts[i]);
      CallerFrame(C(), s, acts);
    }

    method OthersWhileSubmitting(t: Ticket)
      requires Valid() && t < |submits| && HoldsReadLock(submits[t])
      modifies this
      ensures Valid() && Leads(C(), old(State()), State())
      ensures t < |submits| && submits[t] == old(submits[t])
      ensures control == old(control) && isRunning == old(isRunning)
    {
      ghost var s := State();
      Others(Submitter(t));
      ghost var acts :| IsRun(C(), s, acts) && Exec(C(), s, acts) == State()
        && forall i | 0 <= i < |acts| :: ByOther(Submitter(t), acts[i]);
      ReachableInv(C(), s);
      SubmitterFrame(C(), s, acts, t);
    }

    method OthersWhileWorking(ghost w: nat)
      requires Valid() && w < |workers| && workers[w] != Parked
      modifies this
      ensures Valid() && Leads(C(), old(State()), State())
      ensures w < |workers| && workers[w] == old(workers[w])
      ensures old(executed) <= executed
    {
      ghost var s := State();
      Others(Work(w));
      ghost var acts :| IsRun(C(), s, acts) && Exec(C(), s, acts) == State()
        && forall i | 0 <= i < |acts| :: ByOther(Work(w), acts[i]);
      WorkerFrame(C(), s, acts, w);
    }

    method OthersWhileParked(ghost w: nat)
      requires Valid() && w < |workers| && workers[w] == Parked
      modifies this
      ensures Valid() && Leads(C(), old(State()), State())
      ensures w < |workers| && OnceParked(workers[w])
    {
      ghost var s := State();
      Others(Work(w));
      ghost var acts :| IsRun(C(), s, acts) && Exec(C(), s, acts) == State()
        && forall i | 0 <= i < |acts| :: ByOther(Work(w), acts[i]);
      ParkedFrame(C(), s, acts, w);
    }

    // -------------------------------------------- actions of a submission

    /** Taking the read lock, which is possible when no writer holds it. */
    method AcquireReadLock() returns (t: Ticket)
      requires Valid() && WriterFree(control)
      modifies this
      ensures Valid() && State() == Apply(C(), old(State()), SubmitCall)
      ensures t == |old(submits)|
    {
      ReachableStep(C(), State(), SubmitCall);
      t := |submits|;
      submits := submits + [Holding];
    }

    method CheckIsRunning(t: Ticket) returns (ok: bool)
      requires Valid() && t < |submits| && submits[t] == Holding
      modifies this
      ensures Valid() && State() == Apply(C(), old(State()), BySubmit(t, CheckRunning))
      ensures ok == old(isRunning)
    {
      ReachableStep(C(), State(), BySubmit(t, CheckRunning));
      ok := isRunning;
      submits := submits[t := if ok then Sending else Returning(Failed)];
    }

    method HandOver(t: Ticket, w: nat)
      requires Valid() && t < |submits| && submits[t] == Sending && w < |workers| && workers[w] == Parked
      modifies this
      ensures Valid() && State() == Apply(C(), old(State()), BySubmit(t, SendHandoff(w)))
    {
      ReachableStep(C(), State(), BySubmit(t, SendHandoff(w)));
      workers := workers[w := Took(t)];
      submits := submits[t := Returning(Accepted)];
    }

    method Buffer(t: Ticket)
      requires Valid() && t < |submits| && SubmitEnabled(C(), State(), submits[t], SendBuffer)
      modifies this
      ensures Valid() && State() == Apply(C(), old(State()), BySubmit(t, SendBuffer))
    {
      ReachableStep(C(), State(), BySubmit(t, SendBuffer));
      jobQueue := jobQueue + [t];
      submits := submits[t := Returning(Accepted)];
    }

    method TakeDefault(t: Ticket)
      requires Valid() && t < |submits| && SubmitEnabled(C(), State(), submits[t], SendDefault)
      modifies this
      ensures Valid() && State() == Apply(C(), old(State()), BySubmit(t, SendDefault))
    {
      ReachableStep(C(), State(), BySubmit(t, SendDefault));
      submits := submits[t := if C().Fixed() then Returning(Refused) else TrySpawn];
    }

    /** The select of Submit.  The job goes to a parked worker, else into free
        buffer space; otherwise the default branch is taken. */
    method TrySend(t: Ticket) returns (sent: bool, ghost e: SubmitStep)
      requires Valid() && t < |submits| && submits[t] == Sending
      modifies this
      ensures Valid()
      ensures Enabled(C(), old(State()), BySubmit(t, e)) && State() == Apply(C(), old(State()), BySubmit(t, e))
      ensures sent == (e != SendDefault)
      ensures submits[t] == if sent then Returning(Accepted) else if C().Fixed() then Returning(Refused) else TrySpawn
    {
      if w: nat :| w < |workers| && workers[w] == Parked {
        e := SendHandoff(w);
        HandOver(t, w);
        sent := true;
      } else if |jobQueue| < poolConf.queueSize as int {
        e := SendBuffer;
        Buffer(t);
        sent := true;
      } else {
        e := SendDefault;
        TakeDefault(t);
        sent := false;
      }
    }

    method CompareAndIncrementCurrentWorker() returns (ok: bool)
      requires numberOfIdleWorker <= numberOfCurrentWorker
      modifies `numberOfCurrentWorker, `numberOfIdleWorker
      ensures ok == (old(numberOfCurrentWorker) < poolConf.maxNumberOfWorker)
      ensures numberOfCurrentWorker == if ok then old(numberOfCurrentWorker) + 1 else old(numberOfCurrentWorker)
      ensures numberOfIdleWorker == if ok then old(numberOfIdleWorker) + 1 else old(numberOfIdleWorker)
    {
      if numberOfCurrentWorker < poolConf.maxNumberOfWorker {
        numberOfCurrentWorker := numberOfCurrentWorker + 1;
        numberOfIdleWorker := numberOfIdleWorker + 1;
        return true;
      }
      return false;
    }

    method CompareAndDecrementCurrentWorker() returns (ok: bool)
      requires 0 <= numberOfIdleWorker && 0 <= poolConf.minNumberOfWorker
      modifies `numberOfCurrentWorker, `numberOfIdleWorker
      ensures ok == (old(numberOfCurrentWorker) > poolConf.minNumberOfWorker)
      ensures numberOfCurrentWorker == if ok then old(numberOfCurrentWorker) - 1 else old(numberOfCurrentWorker)
      ensures numberOfIdleWorker == if ok then old(numberOfIdleWorker) - 1 else old(numberOfIdleWorker)
    {
      if numberOfCurrentWorker > poolConf.minNumberOfWorker {
        numberOfCurrentWorker := numberOfCurrentWorker - 1;
        numberOfIdleWorker := numberOfIdleWorker - 1;
        return true;
      }
      return false;
    }

    method AddNumberOfIdleWorker(num: int32)
      requires -0x8000_0000 <= numberOfIdleWorker as int + num as int < 0x8000_0000
      modifies `numberOfIdleWorker
      ensures numberOfIdleWorker as int == old(numberOfIdleWorker) as int + num as int
    {
      numberOfIdleWorker := numberOfIdleWorker + num;
    }

    method AddNumberOfCurrentAndIdleWorker(num: int32)
      requires -0x8000_0000 <= numberOfIdleWorker as int + num as int < 0x8000_0000
      requires -0x8000_0000 <= numberOfCurrentWorker as int + num as int < 0x8000_0000
      modifies `numberOfCurrentWorker, `numberOfIdleWorker
      ensures numberOfCurrentWorker as int == old(numberOfCurrentWorker) as int + num as int
      ensures numberOfIdleWorker as int == old(numberOfIdleWorker) as int + num as int
    {
      numberOfCurrentWorker := numberOfCurrentWorker + num;
      numberOfIdleWorker := numberOfIdleWorker + num;
    }

    /** Computed in int32 without overflow, and never negative. */
    method NumberOfAvailableWorker() returns (n: int32)
      requires Valid()
      ensures n as int == PoolModel.NumberOfAvailableWorker(C(), State())
      ensures 0 <= n <= poolConf.maxNumberOfWorker
    {
      CountersInBounds(C(), State());
      n := poolConf.maxNumberOfWorker - numberOfCurrentWorker + numberOfIdleWorker;
    }

    method CompareForSpawn(t: Ticket) returns (ok: bool)
      requires Valid() && t < |submits| && submits[t] == TrySpawn
      modifies this
      ensures Valid() && State() == Apply(C(), old(State()), BySubmit(t, Compare))
      ensures submits[t] == if ok then WgAdd else Returning(Refused)
      ensures ok == (old(numberOfCurrentWorker) < poolConf.maxNumberOfWorker)
    {
      CountersInBounds(C(), State());
      ReachableStep(C(), State(), BySubmit(t, Compare));
      ok := CompareAndIncrementCurrentWorker();
      submits := submits[t := if ok then WgAdd else Returning(Refused)];
    }

    method AddToWaitGroup(t: Ticket)
      requires Valid() && t < |submits| && submits[t] == WgAdd
      modifies this
      ensures Valid() && State() == Apply(C(), old(State()), BySubmit(t, AddToWg))
    {
      ReachableStep(C(), State(), BySubmit(t, AddToWg));
      workersWg := workersWg + 1;
      submits := submits[t := GoSpawn];
    }

    method GoWorkerFor(t: Ticket)
      requires Valid() && t < |submits| && submits[t] == GoSpawn
      modifies this
      ensures Valid() && State() == Apply(C(), old(State()), BySubmit(t, GoWorker))
    {
      ReachableStep(C(), State(), BySubmit(t, GoWorker));
      workers := workers + [Spawned(Some(t))];
      submits := submits[t := Returning(Accepted)];
    }

    method ReleaseReadLock(t: Ticket)
      requires Valid() && t < |submits| && submits[t].Returning?
      modifies this
      ensures Valid() && State() == Apply(C(), old(State()), BySubmit(t, Unlock))
      ensures submits[t] == Returned(old(submits[t]).answer)
    {
      ReachableStep(C(), State(), BySubmit(t, Unlock));
      submits := submits[t := Returned(submits[t].answer)];
    }

    /** The default branch of an elastic pool. */
    method SpawnFor(t: Ticket) returns (ok: bool)
      requires Valid() && t < |submits| && submits[t] == TrySpawn
      modifies this
      ensures Valid() && Leads(C(), old(State()), State())
      ensures t < |submits| && submits[t] == Returning(if ok then Accepted else Refused)
      ensures ok == (old(numberOfCurrentWorker) < poolConf.maxNumberOfWorker)
    {
      ghost var s0 := State();
      LeadsSelf(C(), s0, Caller);
      ok := CompareForSpawn(t);
      LeadsStep(C(), s0, s0, BySubmit(t, Compare));
      if ok {
        ghost var s1 := State();
        OthersWhileSubmitting(t);
        LeadsTrans(C(), s0, s1, State());
        LeadsStep(C(), s0, State(), BySubmit(t, AddToWg));
        AddToWaitGroup(t);
        ghost var s2 := State();
        OthersWhileSubmitting(t);
        LeadsTrans(C(), s0, s2, State());
        LeadsStep(C(), s0, State(), BySubmit(t, GoWorker));
        GoWorkerFor(t);
      }
    }

    /** The select of Submit and what follows from its default branch. */
    method Offer(t: Ticket) returns (isSubmitted: bool)
      requires Valid() && t < |submits| && submits[t] == Sending
      modifies this
      ensures Valid() && Leads(C(), old(State()), State())
      ensures t < |submits| && submits[t] == Returning(if isSubmitted then Accepted else Refused)
    {
      ghost var s0 := State();
      LeadsSelf(C(), s0, Caller);
      ghost var e;
      isSubmitted, e := TrySend(t);
      LeadsStep(C(), s0, s0, BySubmit(t, e));
      if !isSubmitted && poolConf.maxNumberOfWorker != poolConf.minNumberOfWorker {
        ghost var s1 := State();
        OthersWhileSubmitting(t);
        LeadsTrans(C(), s0, s1, State());
        ghost var s2 := State();
        isSubmitted := SpawnFor(t);
        LeadsTrans(C(), s0, s2, State());
      }
    }

    /** Submit, called when the read lock is free.  It fails exactly if the pool
        is not running; its effect is a run of the pool at whose end this
        submission has the answer that is returned. */
    method Submit() returns (t: Ticket, isSubmitted: bool, failed: bool)
      requires Valid() && WriterFree(control)
      modifies this
      ensures Valid() && Leads(C(), old(State()), State())
      ensures failed == !old(isRunning)
      ensures failed ==> !isSubmitted
      ensures t == |old(submits)| < |submits|
      ensures submits[t] == Returned(if failed then Failed else if isSubmitted then Accepted else Refused)
      ensures multiset(jobQueue)[t] + Sums.Sum(workers, HolderOf(t)) + multiset(executed)[t] ==
        if isSubmitted then 1 else 0
    {
      ghost var s0 := State();
      LeadsSelf(C(), s0, Caller);
      LeadsStep(C(), s0, s0, SubmitCall);
      t := AcquireReadLock();
      ghost var s1 := State();
      OthersWhileSubmitting(t);
      LeadsTrans(C(), s0, s1, State());
      LeadsStep(C(), s0, State(), BySubmit(t, CheckRunning));
      var running := CheckIsRunning(t);
      failed, isSubmitted := !running, false;
      if running {
        ghost var s2 := State();
        OthersWhileSubmitting(t);
        LeadsTrans(C(), s0, s2, State());
        ghost var s3 := State();
        isSubmitted := Offer(t);
        LeadsTrans(C(), s0, s3, State());
      }
      LeadsStep(C(), s0, State(), BySubmit(t, Unlock));
      ReleaseReadLock(t);
      JobInOnePlace(C(), State(), t);
    }

    // ------------------------------------------------- Start and Stop

    method LockAndLaunch()
      requires Valid() && control == Created && NoReaders(State())
      modifies this
      ensures Valid() && State() == Apply(C(), old(State()), ByCaller(StartLock))
    {
      ReachableStep(C(), State(), ByCaller(StartLock));
      isRunning := true;
      control, run := StartCounters, Selecting;
    }

    method CountInitialWorkers()
      requires Valid() && control == StartCounters
      modifies this
      ensures Valid() && State() == Apply(C(), old(State()), ByCaller(StartCount))
    {
      CountersInBounds(C(), State());
      ReachableInv(C(), State());
      ReachableStep(C(), State(), ByCaller(StartCount));
      AddNumberOfCurrentAndIdleWorker(poolConf.minNumberOfWorker);
      control := StartWg;
    }

    method AddInitialToWaitGroup()
      requires Valid() && control == StartWg
      modifies this
      ensures Valid() && State() == Apply(C(), old(State()), ByCaller(StartWgAdd))
    {
      ReachableStep(C(), State(), ByCaller(StartWgAdd));
      workersWg := workersWg + poolConf.minNumberOfWorker as int;
      control := StartSpawn(C().min);
    }

    method GoInitialWorker()
      requires Valid() && control.StartSpawn? && 0 < control.left
      modifies this
      ensures Valid() && State() == Apply(C(), old(State()), ByCaller(StartSpawnOne))
    {
      ReachableStep(C(), State(), ByCaller(StartSpawnOne));
      workers := workers + [Spawned(None)];
      control := StartSpawn(control.left - 1);
    }

    method SpawnInitialWorkers()
      requires Valid() && control == StartSpawn(C().min)
      modifies this
      ensures Valid() && Leads(C(), old(State()), State())
      ensures control == StartSpawn(0) && isRunning == old(isRunning)
    {
      ghost var s0 := State();
      LeadsSelf(C(), s0, Caller);
      for i := 0 to poolConf.minNumberOfWorker
        invariant Valid() && Leads(C(), s0, State())
        invariant control == StartSpawn(C().min - i as int) && isRunning == old(isRunning)
      {
        ghost var s1 := State();
        OthersWhileCaller();
        LeadsTrans(C(), s0, s1, State());
        LeadsStep(C(), s0, State(), ByCaller(StartSpawnOne));
        GoInitialWorker();
      }
    }

    /** addInitialWorkers: the initial workers run while the later ones are
        still being created. */
    method AddInitialWorkers()
      requires Valid() && control == StartCounters
      modifies this
      ensures Valid() && Leads(C(), old(State()), State())
      ensures control == StartSpawn(0) && isRunning == old(isRunning)
    {
      ghost var s0 := State();
      LeadsSelf(C(), s0, Caller);
      LeadsStep(C(), s0, s0, ByCaller(StartCount));
      CountInitialWorkers();
      ghost var s1 := State();
      OthersWhileCaller();
      LeadsTrans(C(), s0, s1, State());
      LeadsStep(C(), s0, State(), ByCaller(StartWgAdd));
      AddInitialToWaitGroup();
      ghost var s2 := State();
      SpawnInitialWorkers();
      LeadsTrans(C(), s0, s2, State());
    }

    method ReleaseStartLock()
      requires Valid() && control == StartSpawn(0)
      modifies this
      ensures Valid() && State() == Apply(C(), old(State()), ByCaller(StartReturn))
    {
      ReachableStep(C(), State(), ByCaller(StartReturn));
      control := Running;
    }

    /** Start, called when the lock is free and the pool has not been stopped.
        It fails exactly if the pool is already running; otherwise the pool runs
        with a number of workers within its limits when it returns. */
    method Start() returns (failed: bool)
      requires Valid() && WriterFree(control) && NoReaders(State()) && control != Stopped
      modifies this
      ensures Valid() && Leads(C(), old(State()), State())
      ensures failed == old(isRunning)
      ensures failed ==> State() == old(State())
      ensures isRunning && control == Running
      ensures C().min <= numberOfCurrentWorker as int <= C().max
    {
      ghost var s0 := State();
      LeadsSelf(C(), s0, Caller);
      ReachableInv(C(), s0);
      failed := isRunning;
      if !failed {
        LeadsStep(C(), s0, s0, ByCaller(StartLock));
        LockAndLaunch();
        ghost var s1 := State();
        AddInitialWorkers();
        LeadsTrans(C(), s0, s1, State());
        LeadsStep(C(), s0, State(), ByCaller(StartReturn));
        ReleaseStartLock();
      }
      ReachableInv(C(), State());
      SizeBand(C(), State());
    }

    method LockForStop()
      requires Valid() && control == Running && NoReaders(State())
      modifies this
      ensures Valid() && State() == Apply(C(), old(State()), ByCaller(StopLock))
    {
      ReachableStep(C(), State(), ByCaller(StopLock));
      control := StopLocked;
    }

    method ClearIsRunning()
      requires Valid() && control == StopLocked
      modifies this
      ensures Valid() && State() == Apply(C(), old(State()), ByCaller(StopFlag))
    {
      ReachableStep(C(), State(), ByCaller(StopFlag));
      isRunning := false;
      control := StopFlagged;
    }

    method CloseQuit()
      requires Valid() && control == StopFlagged
      modifies this
      ensures Valid() && State() == Apply(C(), old(State()), ByCaller(StopCloseQuit))
      ensures !old(quitClosed)
    {
      NoChannelPanic(C(), State());
      ReachableStep(C(), State(), ByCaller(StopCloseQuit));
      quitClosed := true;
      control := StopWaiting;
    }

    /** Stop up to its wait for the workers.  It fails exactly if the pool is not
        running. */
    method BeginStop() returns (failed: bool)
      requires Valid() && WriterFree(control) && NoReaders(State())
      modifies this
      ensures Valid() && Leads(C(), old(State()), State())
      ensures failed == !old(isRunning)
      ensures failed ==> State() == old(State())
      ensures !failed ==> control == StopWaiting && quitClosed && !isRunning
    {
      ghost var s0 := State();
      LeadsSelf(C(), s0, Caller);
      ReachableInv(C(), s0);
      failed := !isRunning;
      if !failed {
        LeadsStep(C(), s0, s0, ByCaller(StopLock));
        LockForStop();
        ghost var s1 := State();
        OthersWhileCaller();
        LeadsTrans(C(), s0, s1, State());
        LeadsStep(C(), s0, State(), ByCaller(StopFlag));
        ClearIsRunning();
        ghost var s2 := State();
        OthersWhileCaller();
        LeadsTrans(C(), s0, s2, State());
        LeadsStep(C(), s0, State(), ByCaller(StopCloseQuit));
        CloseQuit();
        ReachableInv(C(), State());
      }
    }

    /** The return of Stop, possible once the wait group is down to zero. */
    method FinishStop()
      requires Valid() && control == StopWaiting && workersWg == 0
      modifies this
      ensures Valid() && State() == Apply(C(), old(State()), ByCaller(StopReturn))
      ensures control == Stopped
      ensures Drained(State()) <==> jobQueue == []
      ensures 1 <= C().min || C().queueSize == 0 ==> Drained(State())
    {
      ReachableStep(C(), State(), ByCaller(StopReturn));
      control := Stopped;
      ReachableInv(C(), State());
      DrainedUnlessBuffered(C(), State());
      if 1 <= C().min || C().queueSize == 0 {
        DrainOnStop(C(), State());
      }
    }

    // --------------------------------- the goroutine created by Start

    method ReceiveQuit()
      requires Valid() && run == Selecting && quitClosed
      modifies this
      ensures Valid() && State() == Apply(C(), old(State()), ByStarter(SeeQuit))
    {
      ReachableStep(C(), State(), ByStarter(SeeQuit));
      run := Closing;
    }

    /** close(jobQueue): every parked worker is released. */
    method CloseJobQueue()
      requires Valid() && run == Closing
      modifies this
      ensures Valid() && State() == Apply(C(), old(State()), ByStarter(CloseQueue))
      ensures !old(jobQueueClosed)
    {
      NoChannelPanic(C(), State());
      ReachableStep(C(), State(), ByStarter(CloseQueue));
      workers := WakeAll(workers);
      jobQueueClosed := true;
      run := Draining;
    }

    /** The return of run, possible once the wait group is down to zero. */
    method FinishRun()
      requires Valid() && run == Draining && workersWg == 0
      modifies this
      ensures Valid() && State() == Apply(C(), old(State()), ByStarter(RunReturn))
    {
      ReachableStep(C(), State(), ByStarter(RunReturn));
      run := Exited;
    }

    // ------------------------------------------------------- the workers

    method BeginWork(w: nat)
      requires Valid() && w < |workers| && workers[w].Spawned?
      modifies this
      ensures Valid() && State() == Apply(C(), old(State()), ByWorker(w, Begin))
    {
      CountersInBounds(C(), State());
      ReachableStep(C(), State(), ByWorker(w, Begin));
      var initial := workers[w].initial;
      if initial.Some? {
        AddNumberOfIdleWorker(-1);
        workers := workers[w := Busy(initial.value)];
      } else {
        workers := workers[w := Looping];
      }
    }

    method LowerIdle(w: nat)
      requires Valid() && w < |workers| && workers[w].Took?
      modifies this
      ensures Valid() && State() == Apply(C(), old(State()), ByWorker(w, StartJob))
    {
      CountersInBounds(C(), State());
      ReachableStep(C(), State(), ByWorker(w, StartJob));
      AddNumberOfIdleWorker(-1);
      workers := workers[w := Busy(workers[w].job)];
    }

    method ExecuteJob(w: nat)
      requires Valid() && w < |workers| && workers[w].Busy?
      modifies this
      ensures Valid() && State() == Apply(C(), old(State()), ByWorker(w, FinishJob))
    {
      ReachableStep(C(), State(), ByWorker(w, FinishJob));
      executed := executed + [workers[w].job];
      workers := workers[w := Finished];
    }

    method RaiseIdle(w: nat)
      requires Valid() && w < |workers| && workers[w] == Finished
      modifies this
      ensures Valid() && State() == Apply(C(), old(State()), ByWorker(w, PoolModel.RestoreIdle))
    {
      CountersInBounds(C(), State());
      ReachableStep(C(), State(), ByWorker(w, PoolModel.RestoreIdle));
      CountersInBounds(C(), Apply(C(), State(), ByWorker(w, PoolModel.RestoreIdle)));
      AddNumberOfIdleWorker(1);
      workers := workers[w := Looping];
    }

    /** doJob from the lowered idle count on. */
    method RunJob(w: nat)
      requires Valid() && w < |workers| && workers[w].Busy?
      modifies this
      ensures Valid() && Leads(C(), old(State()), State())
      ensures w < |workers| && workers[w] == Looping
      ensures old(workers[w].job) in executed
    {
      ghost var s0 := State();
      LeadsSelf(C(), s0, Work(w));
      LeadsStep(C(), s0, s0, ByWorker(w, FinishJob));
      ExecuteJob(w);
      ghost var s1 := State();
      assert s1.executed[|s1.executed| - 1] == old(workers[w].job);
      OthersWhileWorking(w);
      LeadsTrans(C(), s0, s1, State());
      LeadsStep(C(), s0, State(), ByWorker(w, PoolModel.RestoreIdle));
      RaiseIdle(w);
    }

    /** doJob: the job is executed, and the worker is idle again afterwards. */
    method DoJob(w: nat)
      requires Valid() && w < |workers| && workers[w].Took?
      modifies this
      ensures Valid() && Leads(C(), old(State()), State())
      ensures w < |workers| && workers[w] == Looping
      ensures old(workers[w].job) in executed
    {
      ghost var s0 := State();
      LeadsSelf(C(), s0, Work(w));
      LeadsStep(C(), s0, s0, ByWorker(w, StartJob));
      LowerIdle(w);
      ghost var s1 := State();
      OthersWhileWorking(w);
      LeadsTrans(C(), s0, s1, State());
      ghost var s2 := State();
      RunJob(w);
      LeadsTrans(C(), s0, s2, State());
    }

    /** The beginning of work: the initial job, if there is one, is executed. */
    method DoInitialJob(w: nat)
      requires Valid() && w < |workers| && workers[w].Spawned?
      modifies this
      ensures Valid() && Leads(C(), old(State()), State())
      ensures w < |workers| && workers[w] == Looping
      ensures old(workers[w].initial).Some? ==> old(workers[w].initial).value in executed
    {
      ghost var s0 := State();
      LeadsSelf(C(), s0, Work(w));
      LeadsStep(C(), s0, s0, ByWorker(w, Begin));
      BeginWork(w);
      if workers[w].Busy? {
        ghost var s1 := State();
        OthersWhileWorking(w);
        LeadsTrans(C(), s0, s1, State());
        ghost var s2 := State();
        RunJob(w);
        LeadsTrans(C(), s0, s2, State());
      }
    }

    method ReceiveFromQueue(w: nat) returns (isOpen: bool)
      requires Valid() && w < |workers| && workers[w] == Looping && (jobQueue != [] || jobQueueClosed)
      modifies this
      ensures Valid() && State() == Apply(C(), old(State()), ByWorker(w, Receive))
      ensures isOpen == (old(jobQueue) != [])
    {
      ReachableStep(C(), State(), ByWorker(w, Receive));
      isOpen := jobQueue != [];
      if isOpen {
        workers := workers[w := Took(jobQueue[0])];
        jobQueue := jobQueue[1..];
      } else {
        workers := workers[w := SawClosed];
      }
    }

    method LeaveCount(w: nat)
      requires Valid() && w < |workers| && workers[w] == SawClosed
      modifies this
      ensures Valid() && State() == Apply(C(), old(State()), ByWorker(w, LeaveClosed))
    {
      CountersInBounds(C(), State());
      ReachableStep(C(), State(), ByWorker(w, LeaveClosed));
      AddNumberOfCurrentAndIdleWorker(-1);
      workers := workers[w := Leaving];
    }

    method KeepAliveExpires(w: nat)
      requires Valid() && w < |workers| && workers[w] in {Looping, Parked} && !C().Fixed()
      modifies this
      ensures Valid() && State() == Apply(C(), old(State()), ByWorker(w, Tick))
    {
      ReachableStep(C(), State(), ByWorker(w, Tick));
      workers := workers[w := TickerFired];
    }

    method CompareForExit(w: nat) returns (exits: bool)
      requires Valid() && w < |workers| && workers[w] == TickerFired
      modifies this
      ensures Valid() && State() == Apply(C(), old(State()), ByWorker(w, TickCompare))
      ensures workers[w] == if exits then Leaving else Looping
      ensures exits == (old(numberOfCurrentWorker) > poolConf.minNumberOfWorker)
      ensures numberOfCurrentWorker == old(numberOfCurrentWorker) - if exits then 1 else 0
      ensures numberOfIdleWorker == old(numberOfIdleWorker) - if exits then 1 else 0
    {
      CountersInBounds(C(), State());
      ReachableStep(C(), State(), ByWorker(w, TickCompare));
      exits := CompareAndDecrementCurrentWorker();
      workers := workers[w := if exits then Leaving else Looping];
    }

    /** The receive case of the worker's select, taken to the end. */
    method HandleReceive(w: nat) returns (exits: bool)
      requires Valid() && w < |workers| && workers[w] == Looping && (jobQueue != [] || jobQueueClosed)
      modifies this
      ensures Valid() && Leads(C(), old(State()), State())
      ensures exits == (old(jobQueue) == [])
      ensures w < |workers| && workers[w] == if exits then Leaving else Looping
      ensures !exits ==> old(jobQueue)[0] in executed
    {
      ghost var s0 := State();
      LeadsSelf(C(), s0, Work(w));
      LeadsStep(C(), s0, s0, ByWorker(w, Receive));
      var isOpen := ReceiveFromQueue(w);
      ghost var s1 := State();
      OthersWhileWorking(w);
      LeadsTrans(C(), s0, s1, State());
      ghost var s2 := State();
      if isOpen {
        DoJob(w);
        LeadsTrans(C(), s0, s2, State());
      } else {
        LeadsStep(C(), s0, s2, ByWorker(w, LeaveClosed));
        LeaveCount(w);
      }
      exits := !isOpen;
    }

    /** The end of an expiry: the worker leaves if the pool is above its minimum
        and stays if it is not. */
    ghost predicate ExpiryDone(w: nat, exits: bool)
      reads this
    {
      && w < |workers| && workers[w] == (if exits then Leaving else Looping)
      && (if exits then poolConf.minNumberOfWorker <= numberOfCurrentWorker
          else numberOfCurrentWorker <= poolConf.minNumberOfWorker)
    }

    /** The keep-alive case of the select, taken to the end. */
    method HandleExpiry(w: nat) returns (exits: bool)
      requires Valid() && w < |workers| && workers[w] in {Looping, Parked} && !C().Fixed()
      modifies this
      ensures Valid() && Leads(C(), old(State()), State())
      ensures ExpiryDone(w, exits)
    {
      ghost var s0 := State();
      LeadsSelf(C(), s0, Work(w));
      LeadsStep(C(), s0, s0, ByWorker(w, Tick));
      KeepAliveExpires(w);
      ghost var s1 := State();
      OthersWhileWorking(w);
      LeadsTrans(C(), s0, s1, State());
      LeadsStep(C(), s0, State(), ByWorker(w, TickCompare));
      exits := CompareForExit(w);
    }

    /** One turn of the loop of an elastic worker whose select finds a case
        ready; tick says whether its keep-alive has expired, expired whether this
        case has been taken. */
    method DynamicTurn(w: nat, tick: bool) returns (exits: bool, ghost expired: bool)
      requires Valid() && w < |workers| && workers[w] == Looping && !C().Fixed()
      requires tick || jobQueue != [] || jobQueueClosed
      modifies this
      ensures Valid() && Leads(C(), old(State()), State())
      ensures w < |workers| && workers[w] == if exits then Leaving else Looping
      ensures expired ==> tick && ExpiryDone(w, exits)
      ensures !expired ==> exits == (old(jobQueue) == []) && (!exits ==> old(jobQueue)[0] in executed)
      ensures !expired ==> old(jobQueue) != [] || old(jobQueueClosed)
    {
      var preferTick: bool := *;
      if (jobQueue != [] || jobQueueClosed) && !(tick && preferTick) {
        expired := false;
        exits := HandleReceive(w);
      } else {
        expired := true;
        exits := HandleExpiry(w);
      }
    }

    method ParkInSelect(w: nat)
      requires Valid() && w < |workers| && workers[w] == Looping && jobQueue == [] && !jobQueueClosed
      modifies this
      ensures Valid() && State() == Apply(C(), old(State()), ByWorker(w, Park))
    {
      ReachableStep(C(), State(), ByWorker(w, Park));
      workers := workers[w := Parked];
    }

    /** What comes of a worker that was found in the phase woken after parking: a
        job it was handed has been executed, the closed channel makes it leave, and
        if nobody has woken it, its keep-alive does or it stays parked. */
    ghost predicate WakeUpDone(w: nat, tick: bool, woken: Phase, exits: bool)
      requires Acceptable(poolConf)
      reads this
    {
      && w < |workers| && OnceParked(woken)
      && match woken
         case Took(job) => !exits && workers[w] == Looping && job in executed
         case SawClosed => exits && workers[w] == Leaving
         case _ => if tick && !C().Fixed() then ExpiryDone(w, exits) else !exits && workers[w] == Parked
    }

    method WakeUp(w: nat, tick: bool, ghost s0: PoolModel.State) returns (exits: bool)
      requires Valid() && w < |workers| && OnceParked(workers[w]) && Leads(C(), s0, State())
      modifies this
      ensures Valid() && Leads(C(), s0, State())
      ensures WakeUpDone(w, tick, old(workers[w]), exits)
    {
      ghost var s1 := State();
      exits := false;
      if workers[w].Took? {
        DoJob(w);
        LeadsTrans(C(), s0, s1, State());
      } else if workers[w] == SawClosed {
        LeadsStep(C(), s0, s1, ByWorker(w, LeaveClosed));
        LeaveCount(w);
        exits := true;
      } else if tick && poolConf.minNumberOfWorker != poolConf.maxNumberOfWorker {
        exits := HandleExpiry(w);
        LeadsTrans(C(), s0, s1, State());
      }
    }

    /** A worker whose select finds no case ready parks, and goes on as others
        wake it; it may still be parked at the end. */
    method BlockInSelect(w: nat, tick: bool) returns (exits: bool, ghost woken: Phase)
      requires Valid() && w < |workers| && workers[w] in {Looping, Parked}
      requires workers[w] == Looping ==> jobQueue == [] && !jobQueueClosed
      modifies this
      ensures Valid() && Leads(C(), old(State()), State())
      ensures WakeUpDone(w, tick, woken, exits)
    {
      ghost var s0 := State();
      LeadsSelf(C(), s0, Work(w));
      if workers[w] == Looping {
        LeadsStep(C(), s0, s0, ByWorker(w, Park));
        ParkInSelect(w);
      }
      ghost var s1 := State();
      OthersWhileParked(w);
      LeadsTrans(C(), s0, s1, State());
      woken := workers[w];
      exits := WakeUp(w, tick, s0);
    }

    /** The case of the select that a turn has taken. */
    ghost predicate TurnDone(w: nat, tick: bool, taken: Case, queue: seq<Ticket>, exits: bool)
      requires Acceptable(poolConf)
      reads this
    {
      match taken
      case Received => exits == (queue == []) && (!exits ==> queue[0] in executed)
      case Expired => tick && !C().Fixed() && ExpiryDone(w, exits)
      case Blocked(woken) => WakeUpDone(w, tick, woken, exits)
    }

    /** One turn of the loop of any worker.  A worker that is looping blocks only if
        the buffer is empty and the channel is open. */
    method Turn(w: nat, tick: bool) returns (exits: bool, ghost taken: Case)
      requires Valid() && w < |workers| && workers[w] in {Looping, Parked}
      modifies this
      ensures Valid() && Leads(C(), old(State()), State())
      ensures w < |workers| && if exits then workers[w] == Leaving else workers[w] in {Looping, Parked}
      ensures TurnDone(w, tick, taken, old(jobQueue), exits)
      ensures taken.Blocked? ==> old(workers[w]) == Parked || (old(jobQueue) == [] && !old(jobQueueClosed))
    {
      var isFixed := poolConf.minNumberOfWorker == poolConf.maxNumberOfWorker;
      if workers[w] == Looping && !isFixed && (tick || jobQueue != [] || jobQueueClosed) {
        ghost var expired;
        exits, expired := DynamicTurn(w, tick);
        taken := if expired then Expired else Received;
      } else if workers[w] == Looping && isFixed && (jobQueue != [] || jobQueueClosed) {
        exits := HandleReceive(w);
        taken := Received;
      } else {
        ghost var woken;
        exits, woken := BlockInSelect(w, tick);
        taken := Blocked(woken);
      }
    }

    method EndWork(w: nat)
      requires Valid() && w < |workers| && workers[w] == Leaving
      modifies this
      ensures Valid() && State() == Apply(C(), old(State()), ByWorker(w, Done))
      ensures 0 <= workersWg && workers[w] == Gone
    {
      ReachableStep(C(), State(), ByWorker(w, Done));
      workersWg := workersWg - 1;
      workers := workers[w := Gone];
      CountersInBounds(C(), State());
    }

    predicate ChannelDone()
      reads this
    {
      jobQueueClosed && jobQueue == []
    }

    predicate StillDone(w: nat)
      reads this
    {
      ChannelDone() && w < |workers| && workers[w] == Looping
    }

    /** The moves of others before a turn, and the turn.  A worker that loops over a
        closed and drained channel leaves unless its keep-alive comes first. */
    method NextTurn(w: nat, tick: bool) returns (exits: bool)
      requires Valid() && w < |workers| && workers[w] in {Looping, Parked}
      modifies this
      ensures Valid() && Leads(C(), old(State()), State())
      ensures w < |workers| && if exits then workers[w] == Leaving else workers[w] in {Looping, Parked}
      ensures old(StillDone(w)) ==> exits || (StillDone(w) && tick && !C().Fixed())
    {
      ghost var s0 := State();
      LeadsSelf(C(), s0, Work(w));
      if workers[w] == Looping {
        OthersWhileWorking(w);
      }
      ghost var s1 := State();
      ghost var taken;
      exits, taken := Turn(w, tick);
      LeadsTrans(C(), s0, s1, State());
      if old(ChannelDone()) {
        StaysDrained(C(), s0, s1);
        StaysDrained(C(), s0, State());
      }
    }

    method EnterLoop(w: nat)
      requires Valid() && w < |workers| && workers[w].Spawned?
      modifies this
      ensures Valid() && Leads(C(), old(State()), State())
      ensures w < |workers| && workers[w] == Looping
      ensures old(ChannelDone()) ==> StillDone(w)
    {
      ghost var s0 := State();
      DoInitialJob(w);
      if old(ChannelDone()) {
        StaysDrained(C(), s0, State());
      }
    }

    method Leave(w: nat, ghost s0: PoolModel.State)
      requires Valid() && w < |workers| && workers[w] == Leaving && Leads(C(), s0, State())
      modifies this
      ensures Valid() && Leads(C(), s0, State())
      ensures w < |workers| && workers[w] == Gone
    {
      LeadsStep(C(), s0, State(), ByWorker(w, Done));
      EndWork(w);
    }

    /** A turn, and the end of the worker if it leaves its loop. */
    method TurnAndLeave(w: nat, tick: bool, ghost s0: PoolModel.State) returns (done: bool)
      requires Valid() && w < |workers| && workers[w] in {Looping, Parked} && Leads(C(), s0, State())
      modifies this
      ensures Valid() && Leads(C(), s0, State())
      ensures w < |workers| && if done then workers[w] == Gone else workers[w] in {Looping, Parked}
      ensures old(StillDone(w)) ==> done || (StillDone(w) && tick && !C().Fixed())
    {
      ghost var s1 := State();
      done := NextTurn(w, tick);
      LeadsTrans(C(), s0, s1, State());
      if done {
        Leave(w, s0);
      }
    }

    /** One of the first n turns finds the keep-alive not expired, or the worker has
        none. */
    ghost predicate MustReceive(ticks: seq<bool>, n: nat)
      requires Acceptable(poolConf) && n <= |ticks|
    {
      exists i | 0 <= i < n :: !ticks[i] || C().Fixed()
    }

    /** work, for as many turns of its loop as there are in ticks; each says
        whether the keep-alive has expired by then.  The worker is gone exactly if
        it has left its loop, which it has after one turn that does not end with its
        keep-alive if the channel is closed and drained; others move before each of
        its turns and within it. */
    method DoWork(w: nat, ticks: seq<bool>) returns (done: bool)
      requires Valid() && w < |workers| && workers[w].Spawned?
      modifies this
      ensures Valid() && Leads(C(), old(State()), State())
      ensures w < |workers| && if done then workers[w] == Gone else workers[w] in {Looping, Parked}
      ensures old(ChannelDone()) && MustReceive(ticks, |ticks|) ==> done
    {
      ghost var s0 := State();
      EnterLoop(w);
      for i := 0 to |ticks|
        invariant Valid() && Leads(C(), s0, State())
        invariant w < |workers| && workers[w] in {Looping, Parked}
        invariant old(ChannelDone()) ==> StillDone(w) && !MustReceive(ticks, i)
      {
        done := TurnAndLeave(w, ticks[i], s0);
        if done {
          return true;
        }
      }
      return false;
    }
  }
}
