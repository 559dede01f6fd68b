/** Stop returns: after quit is closed every action except a keep-alive expiry
    brings the pool closer to the end, and one such action is always possible. */
module PoolShutdown {
  import opened Sums
  import opened PoolModel
  import opened PoolInvariant

  /** Steps a worker may still have to take before Done, not counting those for
      jobs still in the buffer. */
  function Rank(p: Phase): int {
    match p
    case Gone => 0
    case Leaving => 1
    case SawClosed => 2
    case Parked => 3
    case Looping => 4
    case TickerFired => 5
    case Finished => 5
    case Spawned(None) => 5
    case Busy(_) => 6
    case Took(_) => 7
    case Spawned(Some(_)) => 7
  }

  function RunRank(r: RunPc): int {
    match r
    case NotStarted => 4
    case Selecting => 3
    case Closing => 2
    case Draining => 1
    case Exited => 0
  }

  /** What is left to do while Stop waits. */
  ghost function Remaining(s: State): int {
    RunRank(s.run) + 4 * |s.queue| + Sum(s.workers, Rank) + Bit(s.control == StopWaiting)
  }

  predicate IsTick(a: Action) {
    a.ByWorker? && a.k.Tick?
  }

  predicate IsSubmission(a: Action) {
    a.SubmitCall? || a.BySubmit?
  }

  lemma RemainingNonNegative(s: State)
    ensures 0 <= Remaining(s)
  {
    SumBounds(s.workers, Rank);
  }

  lemma WorkerDecreases(c: Conf, s: State, w: nat, k: WorkerStep)
    requires w < |s.workers| && WorkerEnabled(c, s, s.workers[w], k)
    ensures var d := Remaining(WorkerApply(c, s, w, k)) - Remaining(s);
      if k.Tick? then d <= 2 else d <= -1
  {
    SumUpdate(s.workers, w, NextPhase(c, s, s.workers[w], k), Rank);
  }

  lemma {:induction false} WakeDecreases(ws: seq<Phase>)
    ensures Sum(WakeAll(ws), Rank) <= Sum(ws, Rank)
  {
    if ws != [] {
      var n := |ws| - 1;
      assert WakeAll(ws)[..n] == WakeAll(ws[..n]);
      WakeDecreases(ws[..n]);
    }
  }

  lemma CloseDecreases(s: State)
    requires RunEnabled(s, CloseQueue)
    ensures Remaining(RunApply(s, CloseQueue)) <= Remaining(s) - 1
  {
    var s' := RunApply(s, CloseQueue);
    assert RunRank(s'.run) == RunRank(s.run) - 1;
    assert s'.workers == WakeAll(s.workers) && s'.queue == s.queue && s'.control == s.control;
    WakeDecreases(s.workers);
  }

  lemma RunDecreases(s: State, x: RunStep)
    requires RunEnabled(s, x)
    ensures Remaining(RunApply(s, x)) <= Remaining(s) - 1
  {
    if x == CloseQueue {
      CloseDecreases(s);
    } else {
      assert RunApply(s, x).workers == s.workers;
    }
  }

  /** While Stop waits nothing but the workers and the goroutine of Start moves,
      and it moves towards the end. */
  lemma ActionDecreases(c: Conf, s: State, a: Action)
    requires LifecycleOk(s) && s.control in {StopWaiting, Stopped} && Enabled(c, s, a)
    requires !IsSubmission(a)
    ensures var d := Remaining(Apply(c, s, a)) - Remaining(s);
      if IsTick(a) then d <= 2 else d <= -1
    ensures Apply(c, s, a).control in {StopWaiting, Stopped}
  {
    match a
    case ByCaller(x) =>
    case ByStarter(x) => RunDecreases(s, x);
    case ByWorker(w, k) => WorkerDecreases(c, s, w, k);
    case _ =>
  }

  lemma NoSubmissionWhileStopping(c: Conf, s: State, a: Action)
    requires Inv(c, s) && s.control == StopWaiting && Enabled(c, s, a)
    ensures !IsSubmission(a)
  {
  }

  /** Steps left to a submission that finds the pool not running. */
  function Pending(p: SubmitPc): int {
    match p
    case Holding => 2
    case Returning(_) => 1
    case _ => 0
  }

  /** What is left to do, submissions included. */
  ghost function Outstanding(s: State): int {
    Remaining(s) + Sum(s.submits, Pending)
  }

  /** What an action can add to it, and the action itself. */
  function Cost(a: Action): nat {
    if IsTick(a) || a.SubmitCall? then 3 else 0
  }

  function Costs(acts: seq<Action>): nat {
    if acts == [] then 0 else Cost(acts[0]) + Costs(acts[1..])
  }

  lemma SubmissionCost(c: Conf, s: State, a: Action)
    requires LifecycleOk(s) && SubmittersOk(s) && s.control in {StopWaiting, Stopped} && Enabled(c, s, a)
    requires IsSubmission(a)
    ensures Outstanding(Apply(c, s, a)) + 1 <= Outstanding(s) + Cost(a)
    ensures Apply(c, s, a).control == s.control
  {
    if a.SubmitCall? {
      SumAppend(s.submits, Holding, Pending);
    } else {
      assert SubmitterOk(s.submits[a.t], s.control);
      SumUpdate(s.submits, a.t, NextSubmit(c, s, s.submits[a.t], a.e), Pending);
    }
  }

  lemma ActionCost(c: Conf, s: State, a: Action)
    requires LifecycleOk(s) && SubmittersOk(s) && s.control in {StopWaiting, Stopped} && Enabled(c, s, a)
    ensures Outstanding(Apply(c, s, a)) + 1 <= Outstanding(s) + Cost(a)
    ensures Apply(c, s, a).control in {StopWaiting, Stopped}
  {
    if IsSubmission(a) {
      SubmissionCost(c, s, a);
    } else {
      ActionDecreases(c, s, a);
      assert Apply(c, s, a).submits == s.submits;
    }
  }

  /** Any run from close(quit) on is at most as long as what was outstanding, plus
      three actions for each keep-alive expiry and each submission made in it. */
  lemma {:induction false} ShutdownBound(c: Conf, s: State, acts: seq<Action>)
    requires c.Valid() && Inv(c, s) && s.control in {StopWaiting, Stopped} && IsRun(c, s, acts)
    ensures |acts| <= Outstanding(s) + Costs(acts)
    decreases |acts|
  {
    if acts == [] {
      RemainingNonNegative(s);
      SumBounds(s.submits, Pending);
    } else {
      ActionCost(c, s, acts[0]);
      InvStep(c, s, acts[0]);
      ShutdownBound(c, Apply(c, s, acts[0]), acts[1..]);
    }
  }

  /** The next action of a worker that is not gone, once the channel is closed. */
  function WorkerNext(p: Phase): WorkerStep
    requires p != Gone && p != Parked
  {
    match p
    case Spawned(_) => Begin
    case Looping => Receive
    case Took(_) => StartJob
    case Busy(_) => FinishJob
    case Finished => RestoreIdle
    case TickerFired => TickCompare
    case SawClosed => LeaveClosed
    case Leaving => Done
  }

  /** While Stop waits, an action that is not a keep-alive expiry is possible. */
  lemma StopNotStuck(c: Conf, s: State) returns (a: Action)
    requires c.Valid() && Inv(c, s) && s.control == StopWaiting
    ensures Enabled(c, s, a) && !IsTick(a) && !IsSubmission(a)
  {
    if s.wg == 0 {
      a := ByCaller(StopReturn);
    } else if s.run == Selecting {
      a := ByStarter(SeeQuit);
    } else if s.run == Closing {
      a := ByStarter(CloseQueue);
    } else {
      forall t | 0 <= t < |s.submits|
        ensures MidGo(s.submits[t]) == 0
      {
        assert SubmitterOk(s.submits[t], s.control);
      }
      SumZero(s.submits, MidGo);
      SumBounds(s.workers, Live);
      var w := SumPositive(s.workers, Live);
      assert WorkerOk(c, s, s.workers[w]);
      a := ByWorker(w, WorkerNext(s.workers[w]));
    }
  }

  /** Scheduling anything but keep-alive expiries, Stop returns within the number
      of actions that remain. */
  lemma {:induction false} StopReturns(c: Conf, s: State) returns (acts: seq<Action>)
    requires c.Valid() && Inv(c, s) && s.control == StopWaiting
    ensures IsRun(c, s, acts) && Exec(c, s, acts).control == Stopped
    ensures |acts| <= Remaining(s)
    ensures forall i | 0 <= i < |acts| :: !IsTick(acts[i])
    decreases Remaining(s)
  {
    var a := StopNotStuck(c, s);
    ActionDecreases(c, s, a);
    InvStep(c, s, a);
    var s' := Apply(c, s, a);
    RemainingNonNegative(s');
    if s'.control == Stopped {
      acts := [a];
      assert acts[1..] == [];
    } else {
      var rest := StopReturns(c, s');
      acts := [a] + rest;
      assert acts[1..] == rest;
    }
  }

  /** A submission never waits: whatever its phase, its next action is enabled. */
  lemma SubmitNeverWaits(c: Conf, s: State, t: Ticket) returns (e: SubmitStep)
    requires t < |s.submits| && HoldsReadLock(s.submits[t])
    ensures Enabled(c, s, BySubmit(t, e))
  {
    match s.submits[t]
    case Holding => e := CheckRunning;
    case Sending =>
      if w: nat :| w < |s.workers| && s.workers[w] == Parked {
        e := SendHandoff(w);
      } else {
        e := if |s.queue| < c.queueSize then SendBuffer else SendDefault;
      }
    case TrySpawn => e := Compare;
    case WgAdd => e := AddToWg;
    case GoSpawn => e := GoWorker;
    case Returning(_) => e := Unlock;
  }
}
