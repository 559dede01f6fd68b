/** The size of the pool: Start creates the minimum of workers, and an elastic pool
    can shrink to it whenever nothing is submitted. */
module PoolElastic {
  import opened Sums
  import opened PoolModel
  import opened PoolInvariant
  import opened PoolTheorems

  // -------------------------------------------------------- initial workers

  /** The workers created so far while Start runs. */
  predicate StartOk(c: Conf, s: State) {
    && (s.control in {Created, StartCounters, StartWg} ==> s.workers == [])
    && (s.control.StartSpawn? ==> |s.workers| + s.control.left == c.min)
  }

  lemma SubmitStart(c: Conf, s: State, t: Ticket, e: SubmitStep)
    requires t < |s.submits| && SubmitEnabled(c, s, s.submits[t], e)
    requires SubmitterOk(s.submits[t], s.control) && StartOk(c, s)
    ensures StartOk(c, SubmitApply(c, s, t, e))
  {
    var s' := SubmitApply(c, s, t, e);
    assert s'.control == s.control;
    assert s.control != Running ==> s'.workers == s.workers || e.SendHandoff?;
  }

  lemma WorkerStart(c: Conf, s: State, w: nat, k: WorkerStep)
    requires StartOk(c, s) && w < |s.workers| && WorkerEnabled(c, s, s.workers[w], k)
    ensures StartOk(c, WorkerApply(c, s, w, k))
  {
    var s' := WorkerApply(c, s, w, k);
    assert s'.control == s.control && |s'.workers| == |s.workers|;
  }

  lemma StartStep(c: Conf, s: State, a: Action)
    requires SubmittersOk(s) && StartOk(c, s) && Enabled(c, s, a)
    ensures StartOk(c, Apply(c, s, a))
  {
    match a
    case ByCaller(x) =>
    case ByStarter(x) =>
    case SubmitCall =>
    case BySubmit(t, e) =>
      assert SubmitterOk(s.submits[t], s.control);
      SubmitStart(c, s, t, e);
    case ByWorker(w, k) => WorkerStart(c, s, w, k);
  }

  lemma {:induction false} StartRun(c: Conf, s: State, acts: seq<Action>)
    requires c.Valid() && Inv(c, s) && StartOk(c, s) && IsRun(c, s, acts)
    ensures StartOk(c, Exec(c, s, acts))
    decreases |acts|
  {
    if acts != [] {
      StartStep(c, s, acts[0]);
      InvStep(c, s, acts[0]);
      StartRun(c, Apply(c, s, acts[0]), acts[1..]);
    }
  }

  /** When Start is about to return it has created exactly the minimum of workers. */
  lemma InitialWorkers(c: Conf, s: State)
    requires c.Valid() && Reachable(c, s) && ControlEnabled(s, StartReturn)
    ensures |s.workers| == c.min
  {
    var acts :| IsRun(c, INIT, acts) && Exec(c, INIT, acts) == s;
    InvInit(c);
    StartRun(c, INIT, acts);
  }

  // -------------------------------------------------------------- shrinking

  predicate OnlyWorkers(acts: seq<Action>) {
    forall i | 0 <= i < |acts| :: acts[i].ByWorker?
  }

  /** How far a worker is from leaving the count. */
  function ToLeave(p: Phase): nat {
    match p
    case TickerFired => 1
    case Looping => 2
    case Parked => 2
    case Finished => 3
    case Busy(_) => 4
    case Took(_) => 5
    case Spawned(_) => 6
    case _ => 0
  }

  /** The step that brings it there. */
  function TowardsLeaving(p: Phase): WorkerStep {
    match p
    case Spawned(_) => Begin
    case Took(_) => StartJob
    case Busy(_) => FinishJob
    case Finished => RestoreIdle
    case TickerFired => TickCompare
    case _ => Tick
  }

  /** The state in which one worker less is counted. */
  predicate OneLess(s: State, s': State) {
    s'.control == s.control && s'.submits == s.submits && s'.current == s.current - 1
  }

  lemma CountedRuns(c: Conf, s: State, w: nat)
    requires Inv(c, s) && s.control == Running && w < |s.workers| && Counted(s.workers[w]) == 1
    ensures s.workers[w] !in {SawClosed, Leaving, Gone}
  {
    assert WorkerOk(c, s, s.workers[w]);
  }

  lemma {:induction false} OneLeaves(c: Conf, s: State, w: nat) returns (acts: seq<Action>)
    requires c.Valid() && Reachable(c, s) && s.control == Running && !c.Fixed() && c.min < s.current
    requires w < |s.workers| && Counted(s.workers[w]) == 1
    ensures IsRun(c, s, acts) && OnlyWorkers(acts) && OneLess(s, Exec(c, s, acts))
    decreases ToLeave(s.workers[w])
  {
    ReachableInv(c, s);
    CountedRuns(c, s, w);
    var a := ByWorker(w, TowardsLeaving(s.workers[w]));
    ReachableStep(c, s, a);
    var rest := [];
    if s.workers[w] != TickerFired {
      rest := OneLeaves(c, Apply(c, s, a), w);
    }
    RunCons(c, s, a, rest);
    acts := [a] + rest;
  }

  /** In an elastic pool with no submission in progress, whatever its workers are
      doing, the workers alone can bring their number down to the minimum: by
      finishing what they do and letting their keep-alives expire. */
  lemma {:induction false} ShrinksToMinimum(c: Conf, s: State) returns (acts: seq<Action>)
    requires c.Valid() && Reachable(c, s) && s.control == Running && NoReaders(s) && !c.Fixed()
    ensures IsRun(c, s, acts) && OnlyWorkers(acts)
    ensures Exec(c, s, acts).current == c.min && Exec(c, s, acts).submits == s.submits
    decreases s.current
  {
    ReachableInv(c, s);
    SizeBand(c, s);
    acts := [];
    if c.min < s.current {
      SumZero(s.submits, MidSpawn);
      var w := SumPositive(s.workers, Counted);
      var first := OneLeaves(c, s, w);
      ReachableRun(c, s, first);
      var second := ShrinksToMinimum(c, Exec(c, s, first));
      RunAppend(c, s, first, second);
      acts := first + second;
    }
  }
}
