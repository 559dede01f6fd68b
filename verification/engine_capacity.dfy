/** The batch a poller asks for fits: if the pool has settled when the poller reads
    the number of available workers and nobody else submits, every message that
    it receives within that number is taken by the pool. */
module EngineCapacity {
  import Pool = PoolModel
  import PoolInv = PoolInvariant
  import Capacity = PoolCapacity
  import PoolTheorems
  import Jobs
  import opened EngineModel
  import opened EngineInvariant
  import opened EngineTheorems

  /** An action during one poll of poller p, in which it has read the number n: p
      does not begin another poll and receives at most n messages, nobody else
      submits, and the pool is quiet.  Everything else may interleave. */
  predicate QuietIn(s: State, a: Action, p: nat, n: int) {
    match a
    case OfPool(x) => Capacity.Quiet(s.pool, x)
    case OfPoller(q, SubmitNext) => q == p
    case OfPoller(q, Select) => q != p
    case OfPoller(q, Receive(received)) => q == p ==> |received| <= n
    case _ => true
  }

  predicate QuietRunIn(c: Pool.Conf, ownerId: string, s: State, acts: seq<Action>, p: nat, n: int)
    requires IsRun(c, ownerId, s, acts)
    decreases |acts|
  {
    acts == [] || (QuietIn(s, acts[0], p, n) && QuietRunIn(c, ownerId, Apply(c, ownerId, s, acts[0]), acts[1..], p, n))
  }

  /** n messages, beginning with first. */
  function Numbers(first: Msg, n: nat): (r: set<Msg>)
    ensures forall m :: m in r <==> first <= m < first + n
  {
    if n == 0 then {} else Numbers(first, n - 1) + {first + n - 1}
  }

  /** The messages poller p receives. */
  function ReceivedIn(s: State, a: Action, p: nat): set<Msg> {
    match a
    case OfPoller(q, Receive(received)) =>
      if q == p then Numbers(|s.messages|, |received|) else {}
    case _ => {}
  }

  function AllReceived(c: Pool.Conf, ownerId: string, s: State, acts: seq<Action>, p: nat): set<Msg>
    requires IsRun(c, ownerId, s, acts)
    decreases |acts|
  {
    if acts == [] then {}
    else ReceivedIn(s, acts[0], p) + AllReceived(c, ownerId, Apply(c, ownerId, s, acts[0]), acts[1..], p)
  }

  // -------------------------------------------------------------- invariant

  /** The poll has made k submissions and has not taken on more than n. */
  predicate Within(pc: PollerPc, base: nat, k: int, n: int) {
    match pc
    case Asking => k == 0
    case Receiving => k == 0
    case Offering(_, batch) => k + |batch| <= n
    case Submitting(_, batch, t) => batch != [] && k - 1 + |batch| <= n && 1 <= k && t == base + k - 1
    case Resting => k <= n
    case Top => k <= n
    case _ => false
  }

  /** The only submission in progress is that of a poller at pc. */
  predicate OnlyOf(s: Pool.State, pc: PollerPc) {
    forall t | 0 <= t < |s.submits| && Pool.HoldsReadLock(s.submits[t]) :: pc.Submitting? && pc.ticket == t
  }

  ghost predicate PoolWithin(c: Pool.Conf, s: Pool.State, pc: PollerPc, base: nat, n: nat) {
    && s.control == Pool.Running
    && Capacity.BatchOk(c, s, base, n)
    && OnlyOf(s, pc)
    && Within(pc, base, |s.submits| - base, n)
  }

  /** A message is with poller p or with the pool. */
  predicate InPlace(s: State, p: nat, m: Msg) {
    m in s.status && (s.status[m] == Held(p) || s.status[m].Submitted?)
  }

  ghost predicate InPoll(c: Pool.Conf, s: State, p: nat, base: nat, n: nat, got: set<Msg>) {
    && p < |s.pollers|
    && PoolWithin(c, s.pool, s.pollers[p].pc, base, n)
    && forall m | m in got :: InPlace(s, p, m)
  }

  lemma PoolMoved(c: Pool.Conf, s: Pool.State, x: Pool.Action, pc: PollerPc, base: nat, n: nat)
    requires PoolInv.Inv(c, s) && PoolWithin(c, s, pc, base, n)
    requires Pool.Enabled(c, s, x) && Capacity.Quiet(s, x) && !x.SubmitCall?
    ensures PoolWithin(c, Pool.Apply(c, s, x), pc, base, n)
  {
    Capacity.BatchStep(c, s, x, base, n);
    SubmitsStay(c, s, x);
    var s' := Pool.Apply(c, s, x);
    forall t | 0 <= t < |s'.submits| && Pool.HoldsReadLock(s'.submits[t])
      ensures Pool.HoldsReadLock(s.submits[t])
    {
      if s.submits[t].Returned? {
        ReturnedStays(c, s, x, t);
      }
    }
  }

  /** Another poller touches no message that is with p or with the pool. */
  lemma OtherPoller(c: Pool.Conf, s: State, p: nat, q: nat, e: PollerStep, m: Msg)
    requires BatchesOk(s) && p < |s.pollers| && q < |s.pollers| && q != p && PollerEnabled(s, q, e)
    requires InPlace(s, p, m)
    ensures InPlace(PollerApply(c, s, q, e), p, m)
  {
    assert BatchOk(s, s.pollers[q].pc);
    if e.ReleaseNext? {
      assert InBatch(s.pollers[q].pc, s.pollers[q].pc.next);
    }
  }

  lemma OtherPollerInPoll(c: Pool.Conf, s: State, p: nat, q: nat, e: PollerStep, base: nat, n: nat, got: set<Msg>)
    requires BatchesOk(s) && InPoll(c, s, p, base, n, got)
    requires q < |s.pollers| && q != p && PollerEnabled(s, q, e) && !e.SubmitNext?
    ensures InPoll(c, PollerApply(c, s, q, e), p, base, n, got)
  {
    forall m | m in got
      ensures InPlace(PollerApply(c, s, q, e), p, m)
    {
      OtherPoller(c, s, p, q, e, m);
    }
    assert PollerApply(c, s, q, e).pool == s.pool;
  }

  /** The answer to a submission within the number is an acceptance. */
  lemma AnswerAccepted(c: Pool.Conf, s: Pool.State, pc: PollerPc, base: nat, n: nat)
    requires PoolWithin(c, s, pc, base, n) && pc.Submitting? && s.submits[pc.ticket].Returned?
    ensures s.submits[pc.ticket].answer == Pool.Accepted
  {
    assert Capacity.WithinBudget(c, s, base, n);
    assert !Pool.WasTurnedDown(s.submits[pc.ticket]);
  }

  lemma TakeInPoll(c: Pool.Conf, s: State, p: nat, base: nat, n: nat, got: set<Msg>)
    requires InPoll(c, s, p, base, n, got) && PollerEnabled(s, p, TakeAnswer)
    ensures InPoll(c, PollerApply(c, s, p, TakeAnswer), p, base, n, got)
  {
    AnswerAccepted(c, s.pool, s.pollers[p].pc, base, n);
    var s' := PollerApply(c, s, p, TakeAnswer);
    forall m | m in got
      ensures InPlace(s', p, m)
    {
      assert InPlace(s, p, m);
    }
  }

  lemma SubmitInPoll(c: Pool.Conf, s: State, p: nat, base: nat, n: nat, got: set<Msg>)
    requires PoolInv.Inv(c, s.pool) && InPoll(c, s, p, base, n, got) && PollerEnabled(s, p, SubmitNext)
    ensures InPoll(c, PollerApply(c, s, p, SubmitNext), p, base, n, got)
  {
    assert Pool.NoReaders(s.pool);
    Capacity.BatchStep(c, s.pool, Pool.SubmitCall, base, n);
    forall m | m in got
      ensures InPlace(PollerApply(c, s, p, SubmitNext), p, m)
    {
      assert InPlace(s, p, m);
    }
  }

  lemma ReceiveInPoll(c: Pool.Conf, s: State, p: nat, received: seq<Jobs.Message>, base: nat, n: nat, got: set<Msg>)
    requires BatchesOk(s) && InPoll(c, s, p, base, n, got) && PollerEnabled(s, p, Receive(received)) && |received| <= n
    ensures InPoll(c, PollerApply(c, s, p, Receive(received)), p, base, n,
                   got + ReceivedIn(s, OfPoller(p, Receive(received)), p))
  {
    var s' := PollerApply(c, s, p, Receive(received));
    forall m | m in got + ReceivedIn(s, OfPoller(p, Receive(received)), p)
      ensures InPlace(s', p, m)
    {
      if m in got {
        assert InPlace(s, p, m);
      }
    }
  }

  lemma OwnStepInPoll(c: Pool.Conf, s: State, p: nat, e: PollerStep, base: nat, n: nat, got: set<Msg>)
    requires PoolInv.Inv(c, s.pool) && BatchesOk(s) && InPoll(c, s, p, base, n, got)
    requires PollerEnabled(s, p, e) && QuietIn(s, OfPoller(p, e), p, n)
    ensures InPoll(c, PollerApply(c, s, p, e), p, base, n, got + ReceivedIn(s, OfPoller(p, e), p))
  {
    assert got + {} == got;
    assert forall m | m in got :: InPlace(s, p, m);
    match e
    case Receive(received) => ReceiveInPoll(c, s, p, received, base, n, got);
    case TakeAnswer => TakeInPoll(c, s, p, base, n, got);
    case SubmitNext => SubmitInPoll(c, s, p, base, n, got);
    case _ =>
  }

  lemma PoolInPoll(c: Pool.Conf, s: State, s': State, p: nat, x: Pool.Action, base: nat, n: nat, got: set<Msg>)
    requires PoolInv.Inv(c, s.pool) && InPoll(c, s, p, base, n, got)
    requires Pool.Enabled(c, s.pool, x) && Capacity.Quiet(s.pool, x) && !x.SubmitCall?
    requires s'.pool == Pool.Apply(c, s.pool, x) && s'.pollers == s.pollers && s'.status == s.status
    ensures InPoll(c, s', p, base, n, got)
  {
    PoolMoved(c, s.pool, x, s.pollers[p].pc, base, n);
    assert forall m | m in got :: InPlace(s, p, m);
  }

  lemma QuietInPoll(c: Pool.Conf, ownerId: string, s: State, a: Action, p: nat, base: nat, n: nat, got: set<Msg>)
    requires InPoll(c, s, p, base, n, got) && Enabled(c, s, a) && !a.OfPoller? && !a.OfPool? && !a.FinishJob?
    ensures InPoll(c, Apply(c, ownerId, s, a), p, base, n, got)
  {
    QuietJobs(c, ownerId, s, a);
    assert forall m | m in got :: InPlace(s, p, m);
  }

  lemma StepInPoll(c: Pool.Conf, ownerId: string, s: State, a: Action, p: nat, base: nat, n: nat, got: set<Msg>)
    requires PoolInv.Inv(c, s.pool) && BatchesOk(s) && InPoll(c, s, p, base, n, got)
    requires Enabled(c, s, a) && QuietIn(s, a, p, n)
    ensures InPoll(c, Apply(c, ownerId, s, a), p, base, n, got + ReceivedIn(s, a, p))
  {
    assert got + {} == got;
    match a
    case OfPool(x) => PoolInPoll(c, s, Apply(c, ownerId, s, a), p, x, base, n, got);
    case FinishJob(w, _, _) =>
      PoolInPoll(c, s, Apply(c, ownerId, s, a), p, Pool.ByWorker(w, Pool.FinishJob), base, n, got);
    case OfPoller(q, e) =>
      if q == p {
        OwnStepInPoll(c, s, p, e, base, n, got);
      } else {
        OtherPollerInPoll(c, s, p, q, e, base, n, got);
      }
    case _ => QuietInPoll(c, ownerId, s, a, p, base, n, got);
  }

  lemma ReachableInPoll(c: Pool.Conf, ownerId: string, s: State, a: Action, p: nat, base: nat, n: nat, got: set<Msg>)
    requires c.Valid() && Reachable(c, ownerId, s) && InPoll(c, s, p, base, n, got)
    requires Enabled(c, s, a) && QuietIn(s, a, p, n)
    ensures InPoll(c, Apply(c, ownerId, s, a), p, base, n, got + ReceivedIn(s, a, p))
    ensures Reachable(c, ownerId, Apply(c, ownerId, s, a))
  {
    ReachableInv(c, ownerId, s);
    StepInPoll(c, ownerId, s, a, p, base, n, got);
    var _ := Then(c, ownerId, s, a);
  }

  lemma {:induction false} RunInPoll(
    c: Pool.Conf, ownerId: string, s: State, acts: seq<Action>, p: nat, base: nat, n: nat, got: set<Msg>)
    requires c.Valid() && Reachable(c, ownerId, s) && InPoll(c, s, p, base, n, got)
    requires IsRun(c, ownerId, s, acts) && QuietRunIn(c, ownerId, s, acts, p, n)
    ensures InPoll(c, Exec(c, ownerId, s, acts), p, base, n, got + AllReceived(c, ownerId, s, acts, p))
    ensures Reachable(c, ownerId, Exec(c, ownerId, s, acts))
    decreases |acts|
  {
    if acts == [] {
      assert got + {} == got;
    } else {
      var a, rest := acts[0], acts[1..];
      var s' := Apply(c, ownerId, s, a);
      ReachableInPoll(c, ownerId, s, a, p, base, n, got);
      RunInPoll(c, ownerId, s', rest, p, base, n, got + ReceivedIn(s, a, p));
      assert got + ReceivedIn(s, a, p) + AllReceived(c, ownerId, s', rest, p)
          == got + AllReceived(c, ownerId, s, acts, p);
    }
  }

  // ---------------------------------------------------------------- theorem

  lemma SettledInPoll(c: Pool.Conf, ownerId: string, s: State, p: nat)
    requires c.Valid() && Reachable(c, ownerId, s) && Capacity.Settled(s.pool)
    requires p < |s.pollers| && s.pollers[p].pc == Asking
    ensures 0 <= Pool.NumberOfAvailableWorker(c, s.pool)
    ensures InPoll(c, s, p, |s.pool.submits|, Pool.NumberOfAvailableWorker(c, s.pool), {})
  {
    ReachableInv(c, ownerId, s);
    PoolTheorems.CountersOrdered(c, s.pool);
    Capacity.SettledCredits(c, s.pool);
  }

  /** A message in place that p has dealt with is with the pool. */
  lemma InPlaceMeans(c: Pool.Conf, ownerId: string, s: State, p: nat, m: Msg)
    requires c.Valid() && Reachable(c, ownerId, s) && p < |s.pollers| && InPlace(s, p, m)
    ensures s.status[m].Submitted? || InBatch(s.pollers[p].pc, m)
  {
    ReachableInv(c, ownerId, s);
  }

  /** Poller p reads the number of available workers of a settled pool, receives at
      most that many messages and submits them while nobody else does: none is
      turned down, and when it has dealt with its batch all are with the pool. */
  lemma BatchFits(c: Pool.Conf, ownerId: string, s: State, acts: seq<Action>, p: nat)
    requires c.Valid() && Reachable(c, ownerId, s) && Capacity.Settled(s.pool)
    requires p < |s.pollers| && s.pollers[p].pc == Asking
    requires IsRun(c, ownerId, s, acts) && acts != [] && acts[0] == OfPoller(p, AskAvailable)
    requires QuietRunIn(c, ownerId, s, acts, p, Pool.NumberOfAvailableWorker(c, s.pool))
    ensures var s' := Exec(c, ownerId, s, acts);
      && p < |s'.pollers|
      && Capacity.NoneTurnedDown(s'.pool, |s.pool.submits|)
      && forall m | m in AllReceived(c, ownerId, s, acts, p) ::
           m in s'.status && (s'.status[m].Submitted? || InBatch(s'.pollers[p].pc, m))
  {
    SettledInPoll(c, ownerId, s, p);
    var base, n := |s.pool.submits|, Pool.NumberOfAvailableWorker(c, s.pool);
    RunInPoll(c, ownerId, s, acts, p, base, n, {});
    var s' := Exec(c, ownerId, s, acts);
    var all := AllReceived(c, ownerId, s, acts, p);
    assert {} + all == all;
    forall m | m in all
      ensures m in s'.status && (s'.status[m].Submitted? || InBatch(s'.pollers[p].pc, m))
    {
      assert InPlace(s', p, m);
      InPlaceMeans(c, ownerId, s', p, m);
    }
  }
}
