/** The elastic worker pool as a transition system.

    Every goroutine that touches the pool has an explicit program counter: the
    caller of Start or Stop (Control), the goroutine started by Start (RunPc),
    every call of Submit (SubmitPc) and every worker (Phase).  One action is one
    critical section, one channel operation or one wait-group operation, so a
    run is an arbitrary interleaving of them. */
module PoolModel {
  /** A call of Submit is identified by its position among all calls; the job
      handed over by that call carries the same number. */
  type Ticket = nat

  datatype Conf = Conf(min: nat, max: nat, queueSize: nat) {
    /** What New leaves in the configuration. */
    predicate Valid() {
      min <= max && 1 <= max
    }

    predicate Fixed() {
      min == max
    }
  }

  datatype Option<T> = None | Some(value: T)

  datatype Phase =
    | Spawned(initial: Option<Ticket>) // goroutine created, nothing done yet
    | Looping                          // about to evaluate the select
    | Parked                           // blocked in the select
    | Took(job: Ticket)                // has a job, idle count not yet lowered
    | Busy(job: Ticket)                // idle count lowered, job executing
    | Finished                         // job done, idle count not yet restored
    | TickerFired                      // keep-alive expired, count not yet compared
    | SawClosed                        // read the closed channel, still counted
    | Leaving                          // out of the count, Done not yet called
    | Gone

  datatype Answer = Accepted | Refused | Failed

  datatype SubmitPc =
    | Holding                  // read lock held
    | Sending                  // the pool was running; at the select
    | TrySpawn                 // default branch of an elastic pool
    | WgAdd                    // current count incremented
    | GoSpawn                  // wait group incremented
    | Returning(answer: Answer) // decided, read lock still held
    | Returned(answer: Answer)

  datatype Control =
    | Created
    | StartCounters
    | StartWg
    | StartSpawn(left: nat)
    | Running
    | StopLocked
    | StopFlagged
    | StopWaiting
    | Stopped

  datatype RunPc = NotStarted | Selecting | Closing | Draining | Exited

  datatype State = State(
    current: int,
    idle: int,
    queue: seq<Ticket>,
    closed: bool,
    quit: bool,
    isRunning: bool,
    wg: int,
    control: Control,
    run: RunPc,
    workers: seq<Phase>,
    submits: seq<SubmitPc>,
    executed: seq<Ticket>)

  const INIT: State :=
    State(0, 0, [], false, false, false, 0, Created, NotStarted, [], [], [])

  // ---------------------------------------------------------------- actions

  datatype ControlStep =
    | StartLock | StartCount | StartWgAdd | StartSpawnOne | StartReturn
    | StopLock | StopFlag | StopCloseQuit | StopReturn

  datatype RunStep = SeeQuit | CloseQueue | RunReturn

  datatype SubmitStep =
    | CheckRunning | SendHandoff(w: nat) | SendBuffer | SendDefault
    | Compare | AddToWg | GoWorker | Unlock

  datatype WorkerStep =
    | Begin | Receive | Park | Tick | StartJob | FinishJob | RestoreIdle
    | TickCompare | LeaveClosed | Done

  datatype Action =
    | ByCaller(c: ControlStep)
    | ByStarter(r: RunStep)
    | SubmitCall
    | BySubmit(t: Ticket, e: SubmitStep)
    | ByWorker(w: nat, k: WorkerStep)

  predicate HoldsReadLock(p: SubmitPc) {
    !p.Returned?
  }

  predicate NoReaders(s: State) {
    forall t | 0 <= t < |s.submits| :: !HoldsReadLock(s.submits[t])
  }

  predicate WriterFree(c: Control) {
    c.Created? || c.Running? || c.Stopped?
  }

  predicate NoneParked(s: State) {
    forall w | 0 <= w < |s.workers| :: s.workers[w] != Parked
  }

  predicate ControlEnabled(s: State, a: ControlStep) {
    match a
    case StartLock => s.control == Created && NoReaders(s)
    case StartCount => s.control == StartCounters
    case StartWgAdd => s.control == StartWg
    case StartSpawnOne => s.control.StartSpawn? && s.control.left > 0
    case StartReturn => s.control.StartSpawn? && s.control.left == 0
    case StopLock => s.control == Running && NoReaders(s)
    case StopFlag => s.control == StopLocked
    case StopCloseQuit => s.control == StopFlagged
    case StopReturn => s.control == StopWaiting && s.wg == 0
  }

  predicate RunEnabled(s: State, a: RunStep) {
    match a
    case SeeQuit => s.run == Selecting && s.quit
    case CloseQueue => s.run == Closing
    case RunReturn => s.run == Draining && s.wg == 0
  }

  /** A send hands over to a parked receiver if there is one, otherwise it uses
      free buffer space; the default branch is taken only if neither exists. */
  predicate SubmitEnabled(c: Conf, s: State, p: SubmitPc, e: SubmitStep) {
    match e
    case CheckRunning => p == Holding
    case SendHandoff(w) => p == Sending && w < |s.workers| && s.workers[w] == Parked
    case SendBuffer => p == Sending && NoneParked(s) && |s.queue| < c.queueSize
    case SendDefault => p == Sending && NoneParked(s) && |s.queue| >= c.queueSize
    case Compare => p == TrySpawn
    case AddToWg => p == WgAdd
    case GoWorker => p == GoSpawn
    case Unlock => p.Returning?
  }

  /** A receive drains the buffer before it reports a closed channel, and a
      worker parks only if no case of its select is ready. */
  predicate WorkerEnabled(c: Conf, s: State, p: Phase, k: WorkerStep) {
    match k
    case Begin => p.Spawned?
    case Receive => p == Looping && (s.queue != [] || s.closed)
    case Park => p == Looping && s.queue == [] && !s.closed
    case Tick => !c.Fixed() && (p == Looping || p == Parked)
    case StartJob => p.Took?
    case FinishJob => p.Busy?
    case RestoreIdle => p == Finished
    case TickCompare => p == TickerFired
    case LeaveClosed => p == SawClosed
    case Done => p == Leaving
  }

  predicate Enabled(c: Conf, s: State, a: Action) {
    match a
    case ByCaller(x) => ControlEnabled(s, x)
    case ByStarter(x) => RunEnabled(s, x)
    case SubmitCall => WriterFree(s.control)
    case BySubmit(t, e) => t < |s.submits| && SubmitEnabled(c, s, s.submits[t], e)
    case ByWorker(w, k) => w < |s.workers| && WorkerEnabled(c, s, s.workers[w], k)
  }

  // ---------------------------------------------------------------- effects

  function Wake(p: Phase): Phase {
    if p == Parked then SawClosed else p
  }

  /** Closing the channel releases every parked receiver at once. */
  function WakeAll(ws: seq<Phase>): (r: seq<Phase>)
    ensures |r| == |ws|
    ensures forall i | 0 <= i < |ws| :: r[i] == Wake(ws[i])
  {
    if ws == [] then [] else WakeAll(ws[..|ws| - 1]) + [Wake(ws[|ws| - 1])]
  }

  function ControlApply(c: Conf, s: State, a: ControlStep): State
    requires ControlEnabled(s, a)
  {
    match a
    case StartLock => s.(control := StartCounters, isRunning := true, run := Selecting)
    case StartCount => s.(control := StartWg, current := s.current + c.min, idle := s.idle + c.min)
    case StartWgAdd => s.(control := StartSpawn(c.min), wg := s.wg + c.min)
    case StartSpawnOne => s.(control := StartSpawn(s.control.left - 1), workers := s.workers + [Spawned(None)])
    case StartReturn => s.(control := Running)
    case StopLock => s.(control := StopLocked)
    case StopFlag => s.(control := StopFlagged, isRunning := false)
    case StopCloseQuit => s.(control := StopWaiting, quit := true)
    case StopReturn => s.(control := Stopped)
  }

  function RunApply(s: State, a: RunStep): State
    requires RunEnabled(s, a)
  {
    match a
    case SeeQuit => s.(run := Closing)
    case CloseQueue => s.(run := Draining, closed := true, workers := WakeAll(s.workers))
    case RunReturn => s.(run := Exited)
  }

  /** The new program counter of the submission that moves. */
  function NextSubmit(c: Conf, s: State, p: SubmitPc, e: SubmitStep): SubmitPc
    requires SubmitEnabled(c, s, p, e)
  {
    match e
    case CheckRunning => if s.isRunning then Sending else Returning(Failed)
    case SendHandoff(_) => Returning(Accepted)
    case SendBuffer => Returning(Accepted)
    case SendDefault => if c.Fixed() then Returning(Refused) else TrySpawn
    case Compare => if s.current < c.max then WgAdd else Returning(Refused)
    case AddToWg => GoSpawn
    case GoWorker => Returning(Accepted)
    case Unlock => Returned(p.answer)
  }

  function SubmitApply(c: Conf, s: State, t: Ticket, e: SubmitStep): State
    requires t < |s.submits| && SubmitEnabled(c, s, s.submits[t], e)
  {
    var moved := s.(submits := s.submits[t := NextSubmit(c, s, s.submits[t], e)]);
    match e
    case CheckRunning => moved
    case SendHandoff(w) => moved.(workers := s.workers[w := Took(t)])
    case SendBuffer => moved.(queue := s.queue + [t])
    case SendDefault => moved
    case Compare =>
      if s.current < c.max then moved.(current := s.current + 1, idle := s.idle + 1) else moved
    case AddToWg => moved.(wg := s.wg + 1)
    case GoWorker => moved.(workers := s.workers + [Spawned(Some(t))])
    case Unlock => moved
  }

  /** The new phase of the worker that moves; the rest of its effect is below. */
  function NextPhase(c: Conf, s: State, p: Phase, k: WorkerStep): Phase
    requires WorkerEnabled(c, s, p, k)
  {
    match k
    case Begin => if p.initial.Some? then Busy(p.initial.value) else Looping
    case Receive => if s.queue != [] then Took(s.queue[0]) else SawClosed
    case Park => Parked
    case Tick => TickerFired
    case StartJob => Busy(p.job)
    case FinishJob => Finished
    case RestoreIdle => Looping
    case TickCompare => if s.current > c.min then Leaving else Looping
    case LeaveClosed => Leaving
    case Done => Gone
  }

  function WorkerApply(c: Conf, s: State, w: nat, k: WorkerStep): State
    requires w < |s.workers| && WorkerEnabled(c, s, s.workers[w], k)
  {
    var p := s.workers[w];
    var moved := s.(workers := s.workers[w := NextPhase(c, s, p, k)]);
    match k
    case Begin => if p.initial.Some? then moved.(idle := s.idle - 1) else moved
    case Receive => if s.queue != [] then moved.(queue := s.queue[1..]) else moved
    case Park => moved
    case Tick => moved
    case StartJob => moved.(idle := s.idle - 1)
    case FinishJob => moved.(executed := s.executed + [p.job])
    case RestoreIdle => moved.(idle := s.idle + 1)
    case TickCompare =>
      if s.current > c.min then moved.(current := s.current - 1, idle := s.idle - 1) else moved
    case LeaveClosed => moved.(current := s.current - 1, idle := s.idle - 1)
    case Done => moved.(wg := s.wg - 1)
  }

  function Apply(c: Conf, s: State, a: Action): State
    requires Enabled(c, s, a)
  {
    match a
    case ByCaller(x) => ControlApply(c, s, x)
    case ByStarter(x) => RunApply(s, x)
    case SubmitCall => s.(submits := s.submits + [Holding])
    case BySubmit(t, e) => SubmitApply(c, s, t, e)
    case ByWorker(w, k) => WorkerApply(c, s, w, k)
  }

  // ---------------------------------------------------------------- runs

  predicate IsRun(c: Conf, s: State, acts: seq<Action>)
    decreases |acts|
  {
    acts == [] || (Enabled(c, s, acts[0]) && IsRun(c, Apply(c, s, acts[0]), acts[1..]))
  }

  function Exec(c: Conf, s: State, acts: seq<Action>): State
    requires IsRun(c, s, acts)
    decreases |acts|
  {
    if acts == [] then s else Exec(c, Apply(c, s, acts[0]), acts[1..])
  }

  /** Some run of the pool leads from its creation to s. */
  ghost predicate Reachable(c: Conf, s: State) {
    exists acts :: IsRun(c, INIT, acts) && Exec(c, INIT, acts) == s
  }

  function NumberOfAvailableWorker(c: Conf, s: State): int {
    c.max - s.current + s.idle
  }

  predicate WasAccepted(p: SubmitPc) {
    (p.Returning? || p.Returned?) && p.answer == Accepted
  }

  predicate WasTurnedDown(p: SubmitPc) {
    (p.Returning? || p.Returned?) && p.answer != Accepted
  }
}
