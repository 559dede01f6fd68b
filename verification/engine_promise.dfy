/** All pollers together: as long as they receive no more messages than the pool
    is sure to take, none of their submissions is turned down. */
module EnginePromise {
  import Pool = PoolModel
  import PoolInv = PoolInvariant
  import Capacity = PoolCapacity
  import Promise = PoolPromise
  import opened Sums
  import opened EngineModel
  import opened EngineInvariant
  import opened EngineTheorems

  /** Messages in the hands of a poller that it will still submit. */
  function ToSubmit(x: Poller): int {
    match x.pc
    case Offering(_, batch) => |batch|
    case Submitting(_, batch, _) => if batch == [] then 0 else |batch| - 1
    case ReleasingOne(_, batch) => if batch == [] then 0 else |batch| - 1
    case _ => 0
  }

  function ReceivedBy(a: Action): nat {
    match a
    case OfPoller(_, Receive(received)) => |received|
    case _ => 0
  }

  /** The number of messages that all pollers receive in a run. */
  function TotalReceived(acts: seq<Action>): nat {
    if acts == [] then 0 else ReceivedBy(acts[0]) + TotalReceived(acts[1..])
  }

  predicate IsStop(a: Action) {
    a.OfPool? && a.a.ByCaller?
  }

  /** The pool is not stopped in the run. */
  predicate BeforeStop(acts: seq<Action>) {
    forall i | 0 <= i < |acts| :: !IsStop(acts[i])
  }

  // -------------------------------------------------------------- invariant

  /** The submissions made and to be made, and those for `left` messages still to
      be received, are within the budget. */
  ghost predicate InBudget(c: Pool.Conf, s: State, base: nat, n: nat, left: nat) {
    && Promise.PromiseOk(c, s.pool, base, n)
    && |s.pool.submits| - base + Sum(s.pollers, ToSubmit) + left <= n
  }

  /** Only messages below first, which were there before, have been or are being
      released. */
  predicate OnlyOldReleased(s: State, base: nat, first: Msg) {
    && base <= |s.jobs| && first <= |s.messages|
    && (forall t | 0 <= t < base :: s.jobs[t].msg < first)
    && (forall p | 0 <= p < |s.pollers| && s.pollers[p].pc.ReleasingOne? :: s.pollers[p].pc.next < first)
    && (forall m | m in s.status && first <= m :: s.status[m] != Released)
  }

  lemma ToSubmitNonNegative(ps: seq<Poller>)
    ensures 0 <= Sum(ps, ToSubmit)
  {
    SumBounds(ps, ToSubmit);
  }

  lemma SameBatchesSubmit(s: State, s': State)
    requires SameBatches(s, s')
    ensures Sum(s'.pollers, ToSubmit) == Sum(s.pollers, ToSubmit)
  {
    SumPadded(s.pollers, s'.pollers, ToSubmit);
  }

  /** The pool moves without a new submission. */
  lemma PoolInBudget(c: Pool.Conf, s: State, s': State, x: Pool.Action, base: nat, n: nat, left: nat)
    requires PoolInv.Inv(c, s.pool) && InBudget(c, s, base, n, left)
    requires Pool.Enabled(c, s.pool, x) && !x.ByCaller? && !x.SubmitCall?
    requires s'.pool == Pool.Apply(c, s.pool, x) && s'.pollers == s.pollers
    ensures InBudget(c, s', base, n, left)
  {
    Promise.PromiseStep(c, s.pool, x, base, n);
    SubmitsStay(c, s.pool, x);
  }

  /** What a step changes in the number of messages a poller will still submit. */
  function Change(e: PollerStep): int {
    match e
    case Receive(received) => |received|
    case SubmitNext => -1
    case _ => 0
  }

  lemma OnePollerSubmits(c: Pool.Conf, s: State, p: nat, e: PollerStep)
    requires BatchesOk(s) && NoneFailed(s) && p < |s.pollers| && PollerEnabled(s, p, e)
    ensures ToSubmit(s.pollers[p].(pc := NextPc(c, s, p, e))) == ToSubmit(s.pollers[p]) + Change(e)
  {
    assert BatchOk(s, s.pollers[p].pc);
    if e.TakeAnswer? {
      assert NotFailed(s.pool.submits[s.pollers[p].pc.ticket]);
    }
  }

  lemma PollerSubmits(c: Pool.Conf, s: State, p: nat, e: PollerStep)
    requires BatchesOk(s) && NoneFailed(s) && p < |s.pollers| && PollerEnabled(s, p, e)
    ensures Sum(PollerApply(c, s, p, e).pollers, ToSubmit) == Sum(s.pollers, ToSubmit) + Change(e)
  {
    var x := s.pollers[p].(pc := NextPc(c, s, p, e));
    OnePollerSubmits(c, s, p, e);
    SumUpdate(s.pollers, p, x, ToSubmit);
    assert PollerApply(c, s, p, e).pollers == s.pollers[p := x];
  }

  lemma PollerInBudget(c: Pool.Conf, s: State, p: nat, e: PollerStep, base: nat, n: nat, left: nat)
    requires PoolInv.Inv(c, s.pool) && BatchesOk(s) && NoneFailed(s) && InBudget(c, s, base, n, left)
    requires p < |s.pollers| && PollerEnabled(s, p, e) && ReceivedBy(OfPoller(p, e)) <= left
    ensures InBudget(c, PollerApply(c, s, p, e), base, n, left - ReceivedBy(OfPoller(p, e)))
  {
    PollerSubmits(c, s, p, e);
    if e.SubmitNext? {
      Promise.PromiseStep(c, s.pool, Pool.SubmitCall, base, n);
    } else {
      assert PollerApply(c, s, p, e).pool == s.pool;
    }
  }

  lemma StepInBudget(c: Pool.Conf, ownerId: string, s: State, a: Action, base: nat, n: nat, left: nat)
    requires PoolInv.Inv(c, s.pool) && BatchesOk(s) && NoneFailed(s) && InBudget(c, s, base, n, left)
    requires Enabled(c, s, a) && !IsStop(a) && ReceivedBy(a) <= left
    ensures InBudget(c, Apply(c, ownerId, s, a), base, n, left - ReceivedBy(a))
  {
    match a
    case OfPool(x) => PoolInBudget(c, s, Apply(c, ownerId, s, a), x, base, n, left);
    case FinishJob(w, _, _) =>
      PoolInBudget(c, s, Apply(c, ownerId, s, a), Pool.ByWorker(w, Pool.FinishJob), base, n, left);
    case OfPoller(p, e) => PollerInBudget(c, s, p, e, base, n, left);
    case _ =>
      QuietJobs(c, ownerId, s, a);
      SameBatchesSubmit(s, Apply(c, ownerId, s, a));
  }

  /** A poller whose submission is turned down has an old message in its hands. */
  lemma TurnedDownIsOld(c: Pool.Conf, s: State, p: nat, base: nat, first: Msg, n: nat, left: nat)
    requires JobsOk(s) && NoneFailed(s) && InBudget(c, s, base, n, left) && OnlyOldReleased(s, base, first)
    requires p < |s.pollers| && PollerEnabled(s, p, TakeAnswer)
    ensures s.pool.submits[s.pollers[p].pc.ticket].answer == Pool.Accepted || s.pollers[p].pc.next < first
  {
    ToSubmitNonNegative(s.pollers);
    var t := s.pollers[p].pc.ticket;
    assert NotFailed(s.pool.submits[t]);
    if base <= t {
      assert Promise.Covered(c, s.pool, base, n);
      assert !Pool.WasTurnedDown(s.pool.submits[t]);
    }
  }

  lemma PollerReleasesOld(c: Pool.Conf, s: State, p: nat, e: PollerStep, base: nat, first: Msg)
    requires NoneFailed(s) && OnlyOldReleased(s, base, first) && p < |s.pollers| && PollerEnabled(s, p, e)
    requires e.TakeAnswer? ==>
      s.pool.submits[s.pollers[p].pc.ticket].answer == Pool.Accepted || s.pollers[p].pc.next < first
    ensures OnlyOldReleased(PollerApply(c, s, p, e), base, first)
  {
    var s' := PollerApply(c, s, p, e);
    assert s'.pollers == s.pollers[p := s.pollers[p].(pc := NextPc(c, s, p, e))];
    if e.TakeAnswer? {
      assert NotFailed(s.pool.submits[s.pollers[p].pc.ticket]);
    }
  }

  /** Steps that leave the batches and the jobs alone. */
  lemma QuietReleasesOld(s: State, s': State, base: nat, first: Msg)
    requires OnlyOldReleased(s, base, first) && SameBatches(s, s')
    requires |s'.jobs| == |s.jobs| && forall t | 0 <= t < |s.jobs| :: s'.jobs[t].msg == s.jobs[t].msg
    ensures OnlyOldReleased(s', base, first)
  {
    forall p | 0 <= p < |s'.pollers| && s'.pollers[p].pc.ReleasingOne?
      ensures s'.pollers[p].pc.next < first
    {
      assert p < |s.pollers| && s'.pollers[p].pc == s.pollers[p].pc;
    }
  }

  lemma JobMessagesStay(c: Pool.Conf, ownerId: string, s: State, a: Action)
    requires Enabled(c, s, a) && !a.OfPoller?
    ensures var s' := Apply(c, ownerId, s, a);
      |s'.jobs| == |s.jobs| && forall t | 0 <= t < |s.jobs| :: s'.jobs[t].msg == s.jobs[t].msg
  {
    match a
    case OfPool(x) =>
    case FinishJob(w, _, _) =>
    case _ => QuietJobs(c, ownerId, s, a);
  }

  lemma StepReleasesOld(
    c: Pool.Conf, ownerId: string, s: State, a: Action, base: nat, first: Msg, n: nat, left: nat)
    requires JobsOk(s) && NoneFailed(s) && InBudget(c, s, base, n, left) && OnlyOldReleased(s, base, first)
    requires Enabled(c, s, a)
    ensures OnlyOldReleased(Apply(c, ownerId, s, a), base, first)
  {
    if a.OfPoller? {
      if a.e.TakeAnswer? {
        TurnedDownIsOld(c, s, a.p, base, first, n, left);
      }
      PollerReleasesOld(c, s, a.p, a.e, base, first);
    } else {
      QuietBatches(c, ownerId, s, a);
      JobMessagesStay(c, ownerId, s, a);
      QuietReleasesOld(s, Apply(c, ownerId, s, a), base, first);
    }
  }

  ghost predicate Fits(c: Pool.Conf, s: State, base: nat, first: Msg, n: nat, left: nat) {
    InBudget(c, s, base, n, left) && OnlyOldReleased(s, base, first)
  }

  lemma StepFits(c: Pool.Conf, ownerId: string, s: State, a: Action, base: nat, first: Msg, n: nat, left: nat)
    requires c.Valid() && Reachable(c, ownerId, s) && Fits(c, s, base, first, n, left)
    requires Enabled(c, s, a) && !IsStop(a) && ReceivedBy(a) <= left
    ensures Fits(c, Apply(c, ownerId, s, a), base, first, n, left - ReceivedBy(a))
    ensures Reachable(c, ownerId, Apply(c, ownerId, s, a))
  {
    ReachableInv(c, ownerId, s);
    StepInBudget(c, ownerId, s, a, base, n, left);
    StepReleasesOld(c, ownerId, s, a, base, first, n, left);
    var _ := Then(c, ownerId, s, a);
  }

  lemma {:induction false} RunFits(
    c: Pool.Conf, ownerId: string, s: State, acts: seq<Action>, base: nat, first: Msg, n: nat)
    requires c.Valid() && Reachable(c, ownerId, s) && Fits(c, s, base, first, n, TotalReceived(acts))
    requires IsRun(c, ownerId, s, acts) && BeforeStop(acts)
    ensures Fits(c, Exec(c, ownerId, s, acts), base, first, n, 0)
    ensures Reachable(c, ownerId, Exec(c, ownerId, s, acts))
    decreases |acts|
  {
    if acts != [] {
      StepFits(c, ownerId, s, acts[0], base, first, n, TotalReceived(acts));
      RunFits(c, ownerId, Apply(c, ownerId, s, acts[0]), acts[1..], base, first, n);
    }
  }

  // ---------------------------------------------------------------- theorem

  lemma BeginFits(c: Pool.Conf, ownerId: string, s: State, left: nat)
    requires c.Valid() && Reachable(c, ownerId, s) && s.pool.control == Pool.Running && Pool.NoReaders(s.pool)
    requires Sum(s.pollers, ToSubmit) + left <= Promise.SureRoom(c, s.pool)
    ensures 0 <= Promise.SureRoom(c, s.pool)
    ensures Fits(c, s, |s.pool.submits|, |s.messages|, Promise.SureRoom(c, s.pool), left)
  {
    ReachableInv(c, ownerId, s);
    ToSubmitNonNegative(s.pollers);
    Promise.PromiseBegins(c, s.pool, Promise.SureRoom(c, s.pool));
    forall t | 0 <= t < |s.jobs|
      ensures s.jobs[t].msg < |s.messages|
    {
      assert JobOk(s, t);
    }
    forall p | 0 <= p < |s.pollers| && s.pollers[p].pc.ReleasingOne?
      ensures s.pollers[p].pc.next < |s.messages|
    {
      assert BatchOk(s, s.pollers[p].pc);
    }
  }

  lemma AllAreKnown(c: Pool.Conf, ownerId: string, s: State)
    requires c.Valid() && Reachable(c, ownerId, s)
    ensures forall m: Msg :: m in s.status <==> m < |s.messages|
  {
    ReachableInv(c, ownerId, s);
  }

  /** From a state without a submission in progress and in any interleaving of all
      pollers until the pool is stopped: if what they have in their hands and what
      they receive is no more than the sure room of the pool, no submission is
      turned down and no message received is released. */
  lemma PollersFit(c: Pool.Conf, ownerId: string, s: State, acts: seq<Action>)
    requires c.Valid() && Reachable(c, ownerId, s) && s.pool.control == Pool.Running && Pool.NoReaders(s.pool)
    requires IsRun(c, ownerId, s, acts) && BeforeStop(acts)
    requires Sum(s.pollers, ToSubmit) + TotalReceived(acts) <= Promise.SureRoom(c, s.pool)
    ensures var s' := Exec(c, ownerId, s, acts);
      && Capacity.NoneTurnedDown(s'.pool, |s.pool.submits|)
      && forall m: Msg | |s.messages| <= m < |s'.messages| :: m in s'.status && s'.status[m] != Released
  {
    BeginFits(c, ownerId, s, TotalReceived(acts));
    var base, first, n := |s.pool.submits|, |s.messages|, Promise.SureRoom(c, s.pool);
    RunFits(c, ownerId, s, acts, base, first, n);
    var s' := Exec(c, ownerId, s, acts);
    AllAreKnown(c, ownerId, s');
    ToSubmitNonNegative(s'.pollers);
    assert Promise.Covered(c, s'.pool, base, n);
  }
}
