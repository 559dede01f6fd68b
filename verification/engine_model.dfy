/** The message-processing engine: the processor, its pollers, the worker pool
    and the jobs, running together.

    The processor's Start and Stop, the goroutine that fetches tokens, the
    goroutine that pulls repositories, every poller and every goroutine of the
    pool move independently. */
module EngineModel {
  import Pool = PoolModel
  import Jobs
  import opened Reconciliation
  import opened Tokens

  /** Messages are numbered in the order of their reception. */
  type Msg = nat

  datatype ProcPc =
    | ProcCreated
    | StartingPool
    | FirstRefresh
    | ProcRunning       // Start has returned
    | StopCalled        // quit closed, waiting for the two goroutines
    | StoppingPool
    | RemovingRepos
    | ProcStopped

  datatype RunnerPc = NotStarted | Selecting | Fetching | Refreshing | StoppingPollers | RunnerDone

  datatype PullerPc = NoRepositories | Sleeping | Pulling | PullerDone

  /** The goroutine of a poller.  batch is the part of the received messages that
      it has not dealt with; its first message has the number next. */
  datatype PollerPc =
    | Top                                       // at the select of run
    | Chosen                                    // took the default branch
    | Asking                                    // poll has begun
    | Receiving
    | Offering(next: Msg, batch: seq<Jobs.Message>)
    | Submitting(next: Msg, batch: seq<Jobs.Message>, ticket: Pool.Ticket)
    | ReleasingOne(next: Msg, batch: seq<Jobs.Message>)  // refused
    | ReleasingRest(next: Msg, batch: seq<Jobs.Message>) // the pool reported an error
    | Resting                                   // wait
    | Exited

  /** The progress of the Stop of a poller. */
  datatype StopPc = NotStopped | QuitClosed | WakeUpClosed | StopReturned

  datatype Poller = Poller(url: Url, role: AssumeRoleResult, inMap: bool, pc: PollerPc, stop: StopPc)

  /** The token that refreshPollers works through, or has worked through last.
      oks says for each entry whether a session can be created, done how many
      entries have been dealt with, stale which keys are left over; before is what
      the pollers held at the beginning. */
  datatype Refresh = Refresh(list: seq<Properties>, oks: seq<bool>, done: nat, stale: set<Url>, before: Roles)

  const NO_REFRESH := Refresh([], [], 0, {}, map[])

  datatype Status =
    | Held(poller: nat)          // in the hands of a poller
    | Submitted(ticket: Pool.Ticket)
    | Released                   // its release has been attempted

  /** The job of a submission: the message it is about, the poller that made it,
      its state and what it has done. */
  datatype JobRecord = JobRecord(
    msg: Msg, poller: nat, message: Jobs.Message, state: Jobs.JobState, effects: seq<Jobs.Effect>)

  datatype State = State(
    pool: Pool.State,
    proc: ProcPc,
    quit: bool,
    runner: RunnerPc,
    puller: PullerPc,
    pollers: seq<Poller>,
    refresh: Refresh,
    messages: seq<Jobs.Message>,  // every message ever received
    status: map<Msg, Status>,
    jobs: seq<JobRecord>)         // by ticket

  const INIT: State :=
    State.State(Pool.INIT, ProcCreated, false, NotStarted, NoRepositories, [], NO_REFRESH, [], map[], [])

  datatype ProcStep =
    | Start(hasRepositories: bool, token: Token, oks: seq<bool>)
    | PoolStarted
    | StartReturns
    | StopCloseQuit
    | Joined
    | PoolStopped
    | StopReturns

  datatype RunnerStep =
    | TokenTick | TokenFailed
    | TokenReceived(token: Token, oks: seq<bool>)
    | RefreshClient(p: nat)
    | AddPoller
    | SkipEntry
    | RemovePoller(p: nat)
    | RefreshDone
    | SeeQuit
    | StopPoller(p: nat)
    | AllStopped

  datatype PullerStep = PullTick | PullDone | PullerQuit

  datatype PollerStep =
    | Select
    | LookAtToken(expired: bool)
    | AskAvailable
    | Receive(received: seq<Jobs.Message>)
    | SubmitNext
    | BatchDone
    | TakeAnswer
    | ReleaseNext(ok: bool)
    | RestReleased
    | WakeUp

  datatype StopStep = CloseWakeUp | Join

  datatype Action =
    | Proc(x: ProcStep)
    | Runner(r: RunnerStep)
    | Puller(y: PullerStep)
    | OfPoller(p: nat, e: PollerStep)
    | StopOf(p: nat, z: StopStep)
    | OfPool(a: Pool.Action)
    | FinishJob(w: nat, deleteOk: bool, handleOk: bool)

  // ------------------------------------------------------------ guards

  /** Stop of a poller returns only when its goroutine has ended, so whoever
      called it does nothing else in between. */
  predicate NoStopInProgress(s: State) {
    forall p | 0 <= p < |s.pollers| :: s.pollers[p].stop in {NotStopped, StopReturned}
  }

  predicate IsRefreshing(s: State) {
    (s.proc == FirstRefresh || s.runner == Refreshing) && NoStopInProgress(s)
  }

  /** An entry of the token is still to be dealt with. */
  predicate AtEntry(s: State) {
    IsRefreshing(s) && s.refresh.done < |s.refresh.list| && s.refresh.done < |s.refresh.oks|
  }

  function Entry(s: State): Properties
    requires AtEntry(s)
  {
    s.refresh.list[s.refresh.done]
  }

  predicate EntryOk(s: State)
    requires AtEntry(s)
  {
    s.refresh.oks[s.refresh.done]
  }

  predicate Polled(s: State, u: Url) {
    exists p | 0 <= p < |s.pollers| :: s.pollers[p].inMap && s.pollers[p].url == u
  }

  predicate RefreshOver(s: State) {
    NoStopInProgress(s) && |s.refresh.list| <= s.refresh.done && s.refresh.stale == {}
  }

  predicate ProcEnabled(s: State, x: ProcStep) {
    match x
    case Start(_, token, oks) => s.proc == ProcCreated && |oks| == |token.queuePropertiesList|
    case PoolStarted => s.proc == StartingPool && s.pool.control == Pool.Running
    case StartReturns => s.proc == FirstRefresh && RefreshOver(s)
    case StopCloseQuit => s.proc == ProcRunning
    case Joined => s.proc == StopCalled && s.runner == RunnerDone && s.puller in {NoRepositories, PullerDone}
    case PoolStopped => s.proc == StoppingPool && s.pool.control == Pool.Stopped
    case StopReturns => s.proc == RemovingRepos
  }

  predicate RunnerEnabled(s: State, r: RunnerStep) {
    match r
    case TokenTick => s.runner == Selecting
    case TokenFailed => s.runner == Fetching
    case TokenReceived(token, oks) => s.runner == Fetching && |oks| == |token.queuePropertiesList|
    case RefreshClient(p) => AtEntry(s) && p < |s.pollers| && s.pollers[p].inMap && s.pollers[p].url == Entry(s).url
    case AddPoller => AtEntry(s) && !Polled(s, Entry(s).url) && EntryOk(s)
    case SkipEntry => AtEntry(s) && !Polled(s, Entry(s).url) && !EntryOk(s)
    case RemovePoller(p) =>
      && IsRefreshing(s) && |s.refresh.list| <= s.refresh.done
      && p < |s.pollers| && s.pollers[p].inMap && s.pollers[p].url in s.refresh.stale
    case RefreshDone => s.runner == Refreshing && RefreshOver(s)
    case SeeQuit => s.runner == Selecting && s.quit
    case StopPoller(p) =>
      && s.runner == StoppingPollers && NoStopInProgress(s)
      && p < |s.pollers| && s.pollers[p].inMap && s.pollers[p].stop == NotStopped
    case AllStopped =>
      && s.runner == StoppingPollers && NoStopInProgress(s)
      && forall p | 0 <= p < |s.pollers| :: s.pollers[p].inMap ==> s.pollers[p].stop == StopReturned
  }

  predicate PullerEnabled(s: State, y: PullerStep) {
    match y
    case PullTick => s.puller == Sleeping
    case PullDone => s.puller == Pulling
    case PullerQuit => s.puller == Sleeping && s.quit
  }

  predicate PollerEnabled(s: State, p: nat, e: PollerStep)
    requires p < |s.pollers|
  {
    var pc := s.pollers[p].pc;
    match e
    case Select => pc == Top
    case LookAtToken(_) => pc == Chosen
    case AskAvailable => pc == Asking
    case Receive(_) => pc == Receiving
    case SubmitNext => pc.Offering? && pc.batch != [] && Pool.WriterFree(s.pool.control)
    case BatchDone => pc.Offering? && pc.batch == []
    case TakeAnswer => pc.Submitting? && pc.ticket < |s.pool.submits| && s.pool.submits[pc.ticket].Returned?
    case ReleaseNext(_) => pc.ReleasingOne? || (pc.ReleasingRest? && pc.batch != [])
    case RestReleased => pc.ReleasingRest? && pc.batch == []
    case WakeUp => pc == Resting
  }

  predicate StopEnabled(s: State, p: nat, z: StopStep)
    requires p < |s.pollers|
  {
    match z
    case CloseWakeUp => s.pollers[p].stop == QuitClosed
    case Join => s.pollers[p].stop == WakeUpClosed && s.pollers[p].pc == Exited
  }

  /** The pool moves by itself, except that submissions are begun by pollers and
      that Start and Stop are called by the processor. */
  predicate PoolMoves(s: State, a: Pool.Action) {
    match a
    case ByCaller(c) =>
      if c in {Pool.StartLock, Pool.StartCount, Pool.StartWgAdd, Pool.StartSpawnOne, Pool.StartReturn}
      then s.proc == StartingPool else s.proc == StoppingPool
    case ByStarter(_) => true
    case SubmitCall => false
    case BySubmit(_, _) => true
    case ByWorker(_, k) => k != Pool.FinishJob
  }

  function JobOf(s: State, w: nat): Pool.Ticket
    requires w < |s.pool.workers| && s.pool.workers[w].Busy?
  {
    s.pool.workers[w].job
  }

  predicate Enabled(c: Pool.Conf, s: State, a: Action) {
    match a
    case Proc(x) => ProcEnabled(s, x)
    case Runner(r) => RunnerEnabled(s, r)
    case Puller(y) => PullerEnabled(s, y)
    case OfPoller(p, e) => p < |s.pollers| && PollerEnabled(s, p, e)
    case StopOf(p, z) => p < |s.pollers| && StopEnabled(s, p, z)
    case OfPool(x) => PoolMoves(s, x) && Pool.Enabled(c, s.pool, x)
    case FinishJob(w, _, _) =>
      && Pool.Enabled(c, s.pool, Pool.ByWorker(w, Pool.FinishJob))
      && JobOf(s, w) < |s.jobs| // always true, see EngineInvariant
  }

  // ------------------------------------------------------------ effects

  function ProcApply(s: State, x: ProcStep): State
    requires ProcEnabled(s, x)
  {
    match x
    case Start(hasRepositories, token, oks) =>
      s.(proc := StartingPool, puller := if hasRepositories then Sleeping else NoRepositories,
         refresh := Refresh(token.queuePropertiesList, oks, 0, {}, map[]))
    case PoolStarted => s.(proc := FirstRefresh)
    case StartReturns => s.(proc := ProcRunning, runner := Selecting)
    case StopCloseQuit => s.(proc := StopCalled, quit := true)
    case Joined => s.(proc := StoppingPool)
    case PoolStopped => s.(proc := RemovingRepos)
    case StopReturns => s.(proc := ProcStopped)
  }

  /** The pollers in the map, with the credentials each one holds. */
  function RolesOf(ps: seq<Poller>): Roles {
    if ps == [] then map[]
    else
      var x := ps[|ps| - 1];
      var rest := RolesOf(ps[..|ps| - 1]);
      if x.inMap then rest[x.url := x.role] else rest
  }

  /** A poller gets new credentials if the token has some for it and a session can
      be created with them. */
  function Refreshed(x: Poller, entry: Properties, ok: bool): Poller {
    if entry.assumeRoleResult != NO_ROLE && ok then x.(role := entry.assumeRoleResult) else x
  }

  function Added(entry: Properties): Poller {
    Poller(entry.url, entry.assumeRoleResult, true, Top, NotStopped)
  }

  function RunnerApply(s: State, r: RunnerStep): State
    requires RunnerEnabled(s, r)
  {
    match r
    case TokenTick => s.(runner := Fetching)
    case TokenFailed => s.(runner := Selecting)
    case TokenReceived(token, oks) =>
      var held := RolesOf(s.pollers);
      s.(runner := Refreshing, refresh := Refresh(token.queuePropertiesList, oks, 0, held.Keys, held))
    case RefreshClient(p) =>
      s.(pollers := s.pollers[p := Refreshed(s.pollers[p], Entry(s), EntryOk(s))],
         refresh := s.refresh.(done := s.refresh.done + 1, stale := s.refresh.stale - {Entry(s).url}))
    case AddPoller =>
      s.(pollers := s.pollers + [Added(Entry(s))], refresh := s.refresh.(done := s.refresh.done + 1))
    case SkipEntry => s.(refresh := s.refresh.(done := s.refresh.done + 1))
    case RemovePoller(p) =>
      s.(pollers := s.pollers[p := s.pollers[p].(inMap := false, stop := QuitClosed)],
         refresh := s.refresh.(stale := s.refresh.stale - {s.pollers[p].url}))
    case RefreshDone => s.(runner := Selecting)
    case SeeQuit => s.(runner := StoppingPollers)
    case StopPoller(p) => s.(pollers := s.pollers[p := s.pollers[p].(stop := QuitClosed)])
    case AllStopped => s.(runner := RunnerDone)
  }

  function PullerApply(s: State, y: PullerStep): State
    requires PullerEnabled(s, y)
  {
    match y
    case PullTick => s.(puller := Pulling)
    case PullDone => s.(puller := Sleeping)
    case PullerQuit => s.(puller := PullerDone)
  }

  /** Closing quit is the first thing Stop does. */
  predicate PollerQuit(x: Poller) {
    x.stop != NotStopped
  }

  function Rest(batch: seq<Jobs.Message>): seq<Jobs.Message> {
    if batch == [] then [] else batch[1..]
  }

  function NextPc(c: Pool.Conf, s: State, p: nat, e: PollerStep): PollerPc
    requires p < |s.pollers| && PollerEnabled(s, p, e)
  {
    var pc := s.pollers[p].pc;
    match e
    case Select => if PollerQuit(s.pollers[p]) then Exited else Chosen
    case LookAtToken(expired) => if expired then Resting else Asking
    case AskAvailable => if Pool.NumberOfAvailableWorker(c, s.pool) > 0 then Receiving else Resting
    case Receive(received) => if received == [] then Resting else Offering(|s.messages|, received)
    case SubmitNext => Submitting(pc.next, pc.batch, |s.pool.submits|)
    case BatchDone => Top
    case TakeAnswer =>
      (match s.pool.submits[pc.ticket].answer
       case Accepted => Offering(pc.next + 1, Rest(pc.batch))
       case Refused => ReleasingOne(pc.next, pc.batch)
       case Failed => ReleasingRest(pc.next, pc.batch))
    case ReleaseNext(_) =>
      if pc.ReleasingOne? then Offering(pc.next + 1, Rest(pc.batch)) else ReleasingRest(pc.next + 1, Rest(pc.batch))
    case RestReleased => Resting
    case WakeUp => Top
  }

  function PollerApply(c: Pool.Conf, s: State, p: nat, e: PollerStep): State
    requires p < |s.pollers| && PollerEnabled(s, p, e)
  {
    var pc := s.pollers[p].pc;
    var moved := s.(pollers := s.pollers[p := s.pollers[p].(pc := NextPc(c, s, p, e))]);
    match e
    case Receive(received) =>
      moved.(messages := s.messages + received,
             status := map m: Msg | 0 <= m < |s.messages| + |received| ::
                         if m < |s.messages| && m in s.status then s.status[m] else Held(p))
    case SubmitNext =>
      moved.(pool := Pool.Apply(c, s.pool, Pool.SubmitCall),
             jobs := s.jobs + [JobRecord(pc.next, p, pc.batch[0], Jobs.Initial, [])])
    case TakeAnswer =>
      if s.pool.submits[pc.ticket].answer == Pool.Accepted
      then moved.(status := s.status[pc.next := Submitted(pc.ticket)]) else moved
    case ReleaseNext(_) => moved.(status := s.status[pc.next := Released])
    case _ => moved
  }

  function StopApply(s: State, p: nat, z: StopStep): State
    requires p < |s.pollers| && StopEnabled(s, p, z)
  {
    match z
    case CloseWakeUp => s.(pollers := s.pollers[p := s.pollers[p].(stop := WakeUpClosed)])
    case Join => s.(pollers := s.pollers[p := s.pollers[p].(stop := StopReturned)])
  }

  /** The end of the execution of a job: its message is deleted and handled as
      Jobs says. */
  function FinishApply(c: Pool.Conf, ownerId: string, s: State, w: nat, deleteOk: bool, handleOk: bool): State
    requires Enabled(c, s, FinishJob(w, deleteOk, handleOk))
  {
    var t := JobOf(s, w);
    var j := s.jobs[t];
    var r := Jobs.ExecuteAlone(Jobs.Matches(j.message, ownerId), j.state, deleteOk, handleOk);
    s.(pool := Pool.Apply(c, s.pool, Pool.ByWorker(w, Pool.FinishJob)),
       jobs := s.jobs[t := j.(state := r.job, effects := j.effects + r.effects)])
  }

  function Apply(c: Pool.Conf, ownerId: string, s: State, a: Action): State
    requires Enabled(c, s, a)
  {
    match a
    case Proc(x) => ProcApply(s, x)
    case Runner(r) => RunnerApply(s, r)
    case Puller(y) => PullerApply(s, y)
    case OfPoller(p, e) => PollerApply(c, s, p, e)
    case StopOf(p, z) => StopApply(s, p, z)
    case OfPool(x) => s.(pool := Pool.Apply(c, s.pool, x))
    case FinishJob(w, deleteOk, handleOk) => FinishApply(c, ownerId, s, w, deleteOk, handleOk)
  }

  // ---------------------------------------------------------------- runs

  predicate IsRun(c: Pool.Conf, ownerId: string, s: State, acts: seq<Action>)
    decreases |acts|
  {
    acts == [] || (Enabled(c, s, acts[0]) && IsRun(c, ownerId, Apply(c, ownerId, s, acts[0]), acts[1..]))
  }

  function Exec(c: Pool.Conf, ownerId: string, s: State, acts: seq<Action>): State
    requires IsRun(c, ownerId, s, acts)
    decreases |acts|
  {
    if acts == [] then s else Exec(c, ownerId, Apply(c, ownerId, s, acts[0]), acts[1..])
  }

  ghost predicate Reachable(c: Pool.Conf, ownerId: string, s: State) {
    exists acts :: IsRun(c, ownerId, INIT, acts) && Exec(c, ownerId, INIT, acts) == s
  }
}
