/** What holds in every reachable state of the worker pool, and what Stop
    guarantees when it returns. */
module PoolTheorems {
  import opened Sums
  import opened PoolModel
  import opened PoolInvariant

  const MAX_INT32: int := 0x7FFF_FFFF

  lemma {:induction false} RunSnoc(c: Conf, s: State, acts: seq<Action>, a: Action)
    requires IsRun(c, s, acts) && Enabled(c, Exec(c, s, acts), a)
    ensures IsRun(c, s, acts + [a])
    ensures Exec(c, s, acts + [a]) == Apply(c, Exec(c, s, acts), a)
    decreases |acts|
  {
    if acts == [] {
      assert ([] + [a])[1..] == [];
    } else {
      assert (acts + [a])[1..] == acts[1..] + [a];
      RunSnoc(c, Apply(c, s, acts[0]), acts[1..], a);
    }
  }

  lemma ReachableStep(c: Conf, s: State, a: Action)
    requires Reachable(c, s) && Enabled(c, s, a)
    ensures Reachable(c, Apply(c, s, a))
  {
    var acts :| IsRun(c, INIT, acts) && Exec(c, INIT, acts) == s;
    RunSnoc(c, INIT, acts, a);
  }

  lemma ReachableInit(c: Conf)
    ensures Reachable(c, INIT)
  {
    assert IsRun(c, INIT, []) && Exec(c, INIT, []) == INIT;
  }

  lemma RunCons(c: Conf, s: State, a: Action, rest: seq<Action>)
    requires Enabled(c, s, a) && IsRun(c, Apply(c, s, a), rest)
    ensures IsRun(c, s, [a] + rest) && Exec(c, s, [a] + rest) == Exec(c, Apply(c, s, a), rest)
  {
    assert ([a] + rest)[1..] == rest;
  }

  lemma HeadFirst<T>(first: seq<T>, second: seq<T>)
    requires first != []
    ensures first + second == [first[0]] + (first[1..] + second)
  {
  }

  lemma {:induction false} RunAppend(c: Conf, s: State, first: seq<Action>, second: seq<Action>)
    requires IsRun(c, s, first) && IsRun(c, Exec(c, s, first), second)
    ensures IsRun(c, s, first + second)
    ensures Exec(c, s, first + second) == Exec(c, Exec(c, s, first), second)
    decreases |first|
  {
    if first == [] {
      assert first + second == second;
    } else {
      RunAppend(c, Apply(c, s, first[0]), first[1..], second);
      RunCons(c, s, first[0], first[1..] + second);
      HeadFirst(first, second);
    }
  }

  lemma ReachableRun(c: Conf, s: State, acts: seq<Action>)
    requires Reachable(c, s) && IsRun(c, s, acts)
    ensures Reachable(c, Exec(c, s, acts))
  {
    var first :| IsRun(c, INIT, first) && Exec(c, INIT, first) == s;
    RunAppend(c, INIT, first, acts);
  }

  // ------------------------------------------------------------- counters

  lemma CountersOrdered(c: Conf, s: State)
    requires Inv(c, s)
    ensures 0 <= s.idle <= s.current <= c.max
    ensures 0 <= NumberOfAvailableWorker(c, s) <= c.max
  {
    SumBounds(s.workers, IdleCounted);
    SumBounds(s.submits, MidSpawn);
    SumMonotone(s.workers, IdleCounted, Counted);
  }

  /** Both counters are exact, ordered and within int32 in every interleaving,
      so is the number of available workers that the poller reads. */
  lemma CountersInBounds(c: Conf, s: State)
    requires c.Valid() && Reachable(c, s)
    ensures CountersExact(c, s)
    ensures 0 <= s.idle <= s.current <= c.max
    ensures 0 <= NumberOfAvailableWorker(c, s) <= c.max
    ensures c.max <= MAX_INT32 ==> c.max - s.current <= MAX_INT32 && s.current <= MAX_INT32
    ensures 0 <= s.wg
  {
    ReachableInv(c, s);
    CountersOrdered(c, s);
    SumBounds(s.workers, Live);
    SumBounds(s.submits, MidGo);
  }

  /** From the moment the initial workers are counted until the closed channel
      is drained, the pool is within its configured size. */
  lemma SizeBand(c: Conf, s: State)
    requires c.Valid() && Reachable(c, s)
    requires s.control !in {Created, StartCounters} && ChannelAlive(s)
    ensures c.min <= s.current <= c.max
    ensures c.Fixed() ==> s.current == c.max
  {
    ReachableInv(c, s);
  }

  /** No run sends on a closed channel, closes one twice, adds to the wait group
      while somebody may wait on it, or calls Done too often. */
  lemma NoChannelPanic(c: Conf, s: State)
    requires c.Valid() && Reachable(c, s)
    ensures forall t | 0 <= t < |s.submits| && s.submits[t] == Sending :: !s.closed
    ensures s.run == Closing ==> !s.closed
    ensures s.control == StopFlagged ==> !s.quit
    ensures forall t | 0 <= t < |s.submits| && s.submits[t] == WgAdd :: !s.quit
    ensures forall w | 0 <= w < |s.workers| && s.workers[w] == Leaving :: 1 <= s.wg
  {
    ReachableInv(c, s);
    forall t | 0 <= t < |s.submits|
      ensures s.submits[t] == Sending ==> !s.closed
      ensures s.submits[t] == WgAdd ==> !s.quit
    {
      assert SubmitterOk(s.submits[t], s.control);
    }
    forall w | 0 <= w < |s.workers| && s.workers[w] == Leaving
      ensures 1 <= s.wg
    {
      SumBounds(s.workers, Live);
      SumBounds(s.submits, MidGo);
      assert Live(s.workers[w]) == 1;
    }
  }

  lemma WorkerExit(c: Conf, s: State, w: nat, k: WorkerStep)
    requires CountersExact(c, s) && (s.run == Exited ==> s.wg == 0)
    requires w < |s.workers| && WorkerEnabled(c, s, s.workers[w], k)
    requires s.run == Exited ==> PendingWg(s.control) == 0
    ensures WorkerApply(c, s, w, k).run == Exited ==> WorkerApply(c, s, w, k).wg == 0
  {
    SumBounds(s.workers, Live);
    SumBounds(s.submits, MidGo);
    assert Live(s.workers[w]) <= Sum(s.workers, Live);
  }

  lemma ExitStep(c: Conf, s: State, a: Action)
    requires Inv(c, s) && (s.run == Exited ==> s.wg == 0) && Enabled(c, s, a)
    ensures Apply(c, s, a).run == Exited ==> Apply(c, s, a).wg == 0
  {
    match a
    case ByCaller(x) =>
    case ByStarter(x) =>
    case SubmitCall =>
    case BySubmit(t, e) => assert SubmitterOk(s.submits[t], s.control);
    case ByWorker(w, k) => WorkerExit(c, s, w, k);
  }

  lemma {:induction false} ExitRun(c: Conf, s: State, acts: seq<Action>)
    requires c.Valid() && Inv(c, s) && (s.run == Exited ==> s.wg == 0) && IsRun(c, s, acts)
    ensures Exec(c, s, acts).run == Exited ==> Exec(c, s, acts).wg == 0
    decreases |acts|
  {
    if acts != [] {
      ExitStep(c, s, acts[0]);
      InvStep(c, s, acts[0]);
      ExitRun(c, Apply(c, s, acts[0]), acts[1..]);
    }
  }

  /** The goroutine of Start outlives all workers. */
  lemma RunReturnsLast(c: Conf, s: State)
    requires c.Valid() && Reachable(c, s) && s.run == Exited
    ensures s.closed && forall w | 0 <= w < |s.workers| :: s.workers[w] == Gone
  {
    ReachableInv(c, s);
    InvInit(c);
    var acts :| IsRun(c, INIT, acts) && Exec(c, INIT, acts) == s;
    ExitRun(c, INIT, acts);
    SumBounds(s.workers, Live);
    SumBounds(s.submits, MidGo);
    forall w | 0 <= w < |s.workers|
      ensures s.workers[w] == Gone
    {
      assert Live(s.workers[w]) <= 0;
    }
  }

  /** What the first critical section of Start would make of a pool that has been
      stopped. */
  function Restarted(s: State): State
    requires s.control == Stopped
  {
    s.(control := StartCounters, isRunning := true, run := Selecting)
  }

  lemma Follow(c: Conf, s: State, a: Action, rest: seq<Action>) returns (acts: seq<Action>)
    requires Enabled(c, s, a) && IsRun(c, Apply(c, s, a), rest)
    ensures IsRun(c, s, acts) && Exec(c, s, acts) == Exec(c, Apply(c, s, a), rest)
  {
    RunCons(c, s, a, rest);
    acts := [a] + rest;
  }

  /** From the creation of the initial workers straight to the next Stop. */
  lemma {:induction false} SpawnAndStop(c: Conf, s: State) returns (acts: seq<Action>)
    requires s.control.StartSpawn? && NoReaders(s)
    ensures IsRun(c, s, acts)
    ensures var s' := Exec(c, s, acts); s'.control == StopFlagged && s'.quit == s.quit
    decreases s.control.left
  {
    if s.control.left > 0 {
      acts := SpawnAndStop(c, Apply(c, s, ByCaller(StartSpawnOne)));
      acts := Follow(c, s, ByCaller(StartSpawnOne), acts);
    } else {
      var s1 := Apply(c, s, ByCaller(StartReturn));
      var s2 := Apply(c, s1, ByCaller(StopLock));
      acts := Follow(c, s2, ByCaller(StopFlag), []);
      acts := Follow(c, s1, ByCaller(StopLock), acts);
      acts := Follow(c, s, ByCaller(StartReturn), acts);
    }
  }

  /** The pool is single-shot.  After a restart a run leads to a Stop that is about
      to close quit although it is closed; and the new goroutine can go straight
      on to closing the job channel, which is closed if the first goroutine got
      that far. */
  lemma RestartClosesTwice(c: Conf, s: State) returns (acts: seq<Action>)
    requires c.Valid() && Reachable(c, s) && s.control == Stopped && NoReaders(s)
    ensures IsRun(c, Restarted(s), acts)
    ensures ControlEnabled(Exec(c, Restarted(s), acts), StopCloseQuit) && Exec(c, Restarted(s), acts).quit
    ensures RunEnabled(Restarted(s), SeeQuit) && RunApply(Restarted(s), SeeQuit).run == Closing
    ensures s.run in {Draining, Exited} ==> RunApply(Restarted(s), SeeQuit).closed
  {
    ReachableInv(c, s);
    var s0 := Restarted(s);
    var s1 := Apply(c, s0, ByCaller(StartCount));
    var s2 := Apply(c, s1, ByCaller(StartWgAdd));
    acts := SpawnAndStop(c, s2);
    acts := Follow(c, s1, ByCaller(StartWgAdd), acts);
    acts := Follow(c, s0, ByCaller(StartCount), acts);
  }

  // ---------------------------------------------------------------- jobs

  /** A submission that was turned down, failed or is undecided has its job
      nowhere; an accepted one has it in exactly one place. */
  lemma JobInOnePlace(c: Conf, s: State, t: Ticket)
    requires c.Valid() && Reachable(c, s)
    ensures multiset(s.queue)[t] + Sum(s.workers, HolderOf(t)) + multiset(s.executed)[t]
         == if AcceptedIn(s, t) then 1 else 0
    ensures t in s.executed ==> t !in s.queue && forall w | 0 <= w < |s.workers| :: !HoldsJob(s.workers[w], t)
    ensures t in s.queue ==> forall w | 0 <= w < |s.workers| :: !HoldsJob(s.workers[w], t)
    ensures forall v, w | 0 <= v < w < |s.workers| :: !(HoldsJob(s.workers[v], t) && HoldsJob(s.workers[w], t))
  {
    ReachableInv(c, s);
    assert JobConserved(s, t);
    SumBounds(s.workers, HolderOf(t));
    forall w | 0 <= w < |s.workers|
      ensures HoldsJob(s.workers[w], t) ==> 1 <= Sum(s.workers, HolderOf(t))
    {
      assert HolderOf(t)(s.workers[w]) <= Sum(s.workers, HolderOf(t));
    }
    forall v, w | 0 <= v < w < |s.workers| && HoldsJob(s.workers[v], t) && HoldsJob(s.workers[w], t)
      ensures false
    {
      SumTwo(s.workers, v, w, HolderOf(t));
    }
  }

  // --------------------------------------------------------------- draining

  /** Every job of an accepted submission has been executed exactly once, no
      other job has been, and nothing is left in the pool. */
  ghost predicate Drained(s: State) {
    && s.queue == []
    && s.current == 0 && s.idle == 0
    && (forall w | 0 <= w < |s.workers| :: s.workers[w] == Gone)
    && (forall t: Ticket :: multiset(s.executed)[t] == if AcceptedIn(s, t) then 1 else 0)
  }

  lemma AllGoneAfterStop(c: Conf, s: State)
    requires Inv(c, s) && s.control == Stopped
    ensures forall w | 0 <= w < |s.workers| :: s.workers[w] == Gone
    ensures s.current == 0 && s.idle == 0
    ensures forall t: Ticket :: Sum(s.workers, HolderOf(t)) == 0
  {
    forall w | 0 <= w < |s.workers|
      ensures s.workers[w] == Gone
    {
      NoDoneAfterStop(c, s, w);
    }
    forall t | 0 <= t < |s.submits|
      ensures MidSpawn(s.submits[t]) == 0
    {
      assert SubmitterOk(s.submits[t], s.control);
    }
    SumZero(s.workers, Counted);
    SumZero(s.workers, IdleCounted);
    SumZero(s.submits, MidSpawn);
    forall t: Ticket
      ensures Sum(s.workers, HolderOf(t)) == 0
    {
      SumZero(s.workers, HolderOf(t));
    }
  }

  /** When Stop has returned, an empty buffer is all that draining asks for. */
  lemma DrainedUnlessBuffered(c: Conf, s: State)
    requires Inv(c, s) && s.control == Stopped
    ensures Drained(s) <==> s.queue == []
  {
    AllGoneAfterStop(c, s);
    if s.queue == [] {
      forall t: Ticket
        ensures multiset(s.executed)[t] == if AcceptedIn(s, t) then 1 else 0
      {
        assert JobConserved(s, t);
        assert Sum(s.workers, HolderOf(t)) == 0;
      }
    }
  }

  lemma DrainOnStop(c: Conf, s: State)
    requires Inv(c, s) && s.control == Stopped
    requires 1 <= c.min || c.queueSize == 0
    ensures Drained(s)
  {
    AllGoneAfterStop(c, s);
    DrainedUnlessBuffered(c, s);
  }

  lemma Then(c: Conf, s: State, a: Action) returns (s': State)
    requires Reachable(c, s) && Enabled(c, s, a)
    ensures s' == Apply(c, s, a) && Reachable(c, s')
  {
    ReachableStep(c, s, a);
    s' := Apply(c, s, a);
  }

  /** A started pool without initial workers. */
  lemma StartedEmpty(c: Conf) returns (s: State)
    requires c.Valid() && c.min == 0
    ensures Reachable(c, s)
    ensures s == State(0, 0, [], false, false, true, 0, Running, Selecting, [], [], [])
  {
    ReachableInit(c);
    s := INIT;
    s := Then(c, s, ByCaller(StartLock));
    s := Then(c, s, ByCaller(StartCount));
    s := Then(c, s, ByCaller(StartWgAdd));
    s := Then(c, s, ByCaller(StartReturn));
  }

  lemma BufferedJob(c: Conf) returns (s: State)
    requires c.Valid() && c.min == 0 && 0 < c.queueSize
    ensures Reachable(c, s)
    ensures s == State(0, 0, [0], false, false, true, 0, Running, Selecting, [], [Returned(Accepted)], [])
  {
    s := StartedEmpty(c);
    s := Then(c, s, SubmitCall);
    s := Then(c, s, BySubmit(0, CheckRunning));
    s := Then(c, s, BySubmit(0, SendBuffer));
    s := Then(c, s, BySubmit(0, Unlock));
  }

  /** Without a minimum of workers a buffered job can find nobody to run it:
      start, submit one job into the buffer, stop. */
  lemma StrandedJob(c: Conf) returns (s: State)
    requires c.Valid() && c.min == 0 && 0 < c.queueSize
    ensures Reachable(c, s) && s.control == Stopped
    ensures s.queue == [0] && s.executed == [] && s.submits == [Returned(Accepted)]
  {
    s := BufferedJob(c);
    s := Then(c, s, ByCaller(StopLock));
    s := Then(c, s, ByCaller(StopFlag));
    s := Then(c, s, ByCaller(StopCloseQuit));
    s := Then(c, s, ByCaller(StopReturn));
  }

  /** Stop drains the pool in every interleaving exactly if a minimum of workers
      is configured or there is no buffer. */
  lemma DrainIff(c: Conf)
    requires c.Valid()
    ensures (forall s | Reachable(c, s) && s.control == Stopped :: Drained(s))
       <==> (1 <= c.min || c.queueSize == 0)
  {
    if 1 <= c.min || c.queueSize == 0 {
      forall s | Reachable(c, s) && s.control == Stopped
        ensures Drained(s)
      {
        ReachableInv(c, s);
        DrainOnStop(c, s);
      }
    } else {
      var s := StrandedJob(c);
      assert !Drained(s);
    }
  }
}
