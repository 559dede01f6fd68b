/** How many submissions the pool takes whatever happens: any number of callers
    submit at the same time, keep-alives expire, workers come and go; only Stop is
    not called. */
module PoolPromise {
  import opened Sums
  import opened PoolModel
  import opened PoolInvariant
  import opened PoolTheorems
  import opened PoolCapacity

  /** The places nobody can take away: those of workers still to be created and
      of the buffer, and those of parked workers if these cannot expire. */
  ghost function SureRoom(c: Conf, s: State): int {
    (if c.Fixed() then Sum(s.workers, ParkedBit) else 0) + c.max - s.current + c.queueSize - |s.queue|
  }

  predicate NoCaller(acts: seq<Action>) {
    forall i | 0 <= i < |acts| :: !acts[i].ByCaller?
  }

  /** No run with up to n submissions in which Stop is not called has one that is
      turned down. */
  ghost predicate TakesAlways(c: Conf, s: State, n: nat) {
    forall acts | IsRun(c, s, acts) && NoCaller(acts) && |Exec(c, s, acts).submits| <= |s.submits| + n ::
      NoneTurnedDown(Exec(c, s, acts), |s.submits|)
  }

  // ------------------------------------------------- what the pool takes

  /** 1 for a submission that has not taken its place yet. */
  function UndecidedBit(p: SubmitPc): int {
    Bit(p in {Holding, Sending, TrySpawn})
  }

  /** 1 for a submission that relies on a worker still to be created. */
  function SpawnBit(p: SubmitPc): int {
    Bit(p == TrySpawn)
  }

  predicate OldReturned(s: State, base: nat) {
    base <= |s.submits| && forall t | 0 <= t < base :: s.submits[t].Returned?
  }

  /** There is a place for each submission that is undecided and for each of the
      budget that has not been made yet. */
  ghost predicate Covered(c: Conf, s: State, base: nat, budget: nat) {
    && NoneTurnedDown(s, base)
    && budget - (|s.submits| - base) + Sum(s.submits, UndecidedBit) <= SureRoom(c, s)
    && Sum(s.submits, SpawnBit) <= c.max - s.current
  }

  ghost predicate PromiseOk(c: Conf, s: State, base: nat, budget: nat) {
    && s.control == Running
    && OldReturned(s, base)
    && (|s.submits| - base <= budget ==> Covered(c, s, base, budget))
  }

  lemma CallPromise(c: Conf, s: State, base: nat, budget: nat)
    requires PromiseOk(c, s, base, budget) && Enabled(c, s, SubmitCall)
    ensures PromiseOk(c, Apply(c, s, SubmitCall), base, budget)
  {
    SumAppend(s.submits, Holding, UndecidedBit);
    SumAppend(s.submits, Holding, SpawnBit);
  }

  /** Submission t moves on to p at the price of a place if it was undecided, and
      of a worker if it was to have one. */
  lemma MovedPromise(c: Conf, s: State, s': State, t: Ticket, p: SubmitPc, base: nat, budget: nat)
    requires PromiseOk(c, s, base, budget) && t < |s.submits| && !s.submits[t].Returned?
    requires s'.submits == s.submits[t := p] && s'.control == Running
    requires |s.submits| - base <= budget && Covered(c, s, base, budget) ==>
      && !WasTurnedDown(p)
      && UndecidedBit(p) - UndecidedBit(s.submits[t]) <= SureRoom(c, s') - SureRoom(c, s)
      && Sum(s'.submits, SpawnBit) <= c.max - s'.current
    ensures PromiseOk(c, s', base, budget)
  {
    SumUpdate(s.submits, t, p, UndecidedBit);
  }

  lemma HandoffPromise(c: Conf, s: State, t: Ticket, w: nat, base: nat, budget: nat)
    requires PromiseOk(c, s, base, budget)
    requires t < |s.submits| && SubmitEnabled(c, s, s.submits[t], SendHandoff(w))
    ensures PromiseOk(c, SubmitApply(c, s, t, SendHandoff(w)), base, budget)
  {
    SumUpdate(s.workers, w, Took(t), ParkedBit);
    SumUpdate(s.submits, t, Returning(Accepted), SpawnBit);
    MovedPromise(c, s, SubmitApply(c, s, t, SendHandoff(w)), t, Returning(Accepted), base, budget);
  }

  lemma BufferPromise(c: Conf, s: State, t: Ticket, base: nat, budget: nat)
    requires PromiseOk(c, s, base, budget)
    requires t < |s.submits| && SubmitEnabled(c, s, s.submits[t], SendBuffer)
    ensures PromiseOk(c, SubmitApply(c, s, t, SendBuffer), base, budget)
  {
    SumUpdate(s.submits, t, Returning(Accepted), SpawnBit);
    MovedPromise(c, s, SubmitApply(c, s, t, SendBuffer), t, Returning(Accepted), base, budget);
  }

  /** Every submission that relies on a new worker is undecided. */
  lemma SpawnsUndecided(ps: seq<SubmitPc>)
    ensures Sum(ps, SpawnBit) <= Sum(ps, UndecidedBit)
  {
    SumMonotone(ps, SpawnBit, UndecidedBit);
  }

  /** Without a parked worker and free space a covered submission is covered by a
      worker still to be created; in particular the pool is elastic. */
  lemma DefaultPromise(c: Conf, s: State, t: Ticket, base: nat, budget: nat)
    requires Inv(c, s) && PromiseOk(c, s, base, budget)
    requires t < |s.submits| && SubmitEnabled(c, s, s.submits[t], SendDefault)
    ensures PromiseOk(c, SubmitApply(c, s, t, SendDefault), base, budget)
  {
    SumZero(s.workers, ParkedBit);
    SumBounds(s.submits, UndecidedBit);
    var p := if c.Fixed() then Returning(Refused) else TrySpawn;
    assert UndecidedBit(s.submits[t]) <= Sum(s.submits, UndecidedBit);
    SumUpdate(s.submits, t, TrySpawn, UndecidedBit);
    SpawnsUndecided(s.submits[t := TrySpawn]);
    MovedPromise(c, s, SubmitApply(c, s, t, SendDefault), t, p, base, budget);
  }

  lemma ComparePromise(c: Conf, s: State, t: Ticket, base: nat, budget: nat)
    requires PromiseOk(c, s, base, budget)
    requires t < |s.submits| && SubmitEnabled(c, s, s.submits[t], Compare)
    ensures PromiseOk(c, SubmitApply(c, s, t, Compare), base, budget)
  {
    var p := if s.current < c.max then WgAdd else Returning(Refused);
    SumBounds(s.submits, SpawnBit);
    assert SpawnBit(s.submits[t]) <= Sum(s.submits, SpawnBit);
    SumUpdate(s.submits, t, p, SpawnBit);
    MovedPromise(c, s, SubmitApply(c, s, t, Compare), t, p, base, budget);
  }

  lemma OtherPromise(c: Conf, s: State, t: Ticket, e: SubmitStep, base: nat, budget: nat)
    requires LifecycleOk(s) && PromiseOk(c, s, base, budget)
    requires t < |s.submits| && SubmitEnabled(c, s, s.submits[t], e) && e in {CheckRunning, AddToWg, GoWorker, Unlock}
    ensures PromiseOk(c, SubmitApply(c, s, t, e), base, budget)
  {
    var p := NextSubmit(c, s, s.submits[t], e);
    if e == GoWorker {
      SumAppend(s.workers, Spawned(Some(t)), ParkedBit);
    }
    SumUpdate(s.submits, t, p, SpawnBit);
    MovedPromise(c, s, SubmitApply(c, s, t, e), t, p, base, budget);
  }

  lemma SubmitPromise(c: Conf, s: State, t: Ticket, e: SubmitStep, base: nat, budget: nat)
    requires Inv(c, s) && PromiseOk(c, s, base, budget)
    requires t < |s.submits| && SubmitEnabled(c, s, s.submits[t], e)
    ensures PromiseOk(c, SubmitApply(c, s, t, e), base, budget)
  {
    match e
    case SendHandoff(w) => HandoffPromise(c, s, t, w, base, budget);
    case SendBuffer => BufferPromise(c, s, t, base, budget);
    case SendDefault => DefaultPromise(c, s, t, base, budget);
    case Compare => ComparePromise(c, s, t, base, budget);
    case _ => OtherPromise(c, s, t, e, base, budget);
  }

  /** Whatever a worker does, the sure room does not get smaller. */
  lemma WorkerPromise(c: Conf, s: State, w: nat, k: WorkerStep, base: nat, budget: nat)
    requires PromiseOk(c, s, base, budget)
    requires w < |s.workers| && WorkerEnabled(c, s, s.workers[w], k)
    ensures PromiseOk(c, WorkerApply(c, s, w, k), base, budget)
  {
    SumUpdate(s.workers, w, NextPhase(c, s, s.workers[w], k), ParkedBit);
    var s' := WorkerApply(c, s, w, k);
    assert s'.submits == s.submits && s'.current <= s.current;
    assert SureRoom(c, s) <= SureRoom(c, s');
  }

  lemma PromiseStep(c: Conf, s: State, a: Action, base: nat, budget: nat)
    requires Inv(c, s) && PromiseOk(c, s, base, budget) && Enabled(c, s, a) && !a.ByCaller?
    ensures PromiseOk(c, Apply(c, s, a), base, budget)
  {
    match a
    case ByStarter(x) =>
    case SubmitCall => CallPromise(c, s, base, budget);
    case BySubmit(t, e) => SubmitPromise(c, s, t, e, base, budget);
    case ByWorker(w, k) => WorkerPromise(c, s, w, k, base, budget);
  }

  lemma {:induction false} PromiseRun(c: Conf, s: State, acts: seq<Action>, base: nat, budget: nat)
    requires c.Valid() && Inv(c, s) && PromiseOk(c, s, base, budget)
    requires IsRun(c, s, acts) && NoCaller(acts)
    ensures PromiseOk(c, Exec(c, s, acts), base, budget)
    decreases |acts|
  {
    if acts != [] {
      PromiseStep(c, s, acts[0], base, budget);
      InvStep(c, s, acts[0]);
      PromiseRun(c, Apply(c, s, acts[0]), acts[1..], base, budget);
    }
  }

  lemma PromiseBegins(c: Conf, s: State, budget: nat)
    requires c.Valid() && Inv(c, s) && s.control == Running && NoReaders(s) && budget <= SureRoom(c, s)
    ensures PromiseOk(c, s, |s.submits|, budget)
  {
    SumZero(s.submits, UndecidedBit);
    SumZero(s.submits, SpawnBit);
  }

  lemma SureRoomTaken(c: Conf, s: State, budget: nat)
    requires c.Valid() && Reachable(c, s) && s.control == Running && NoReaders(s) && budget <= SureRoom(c, s)
    ensures TakesAlways(c, s, budget)
  {
    ReachableInv(c, s);
    PromiseBegins(c, s, budget);
    forall acts | IsRun(c, s, acts) && NoCaller(acts) && |Exec(c, s, acts).submits| <= |s.submits| + budget
      ensures NoneTurnedDown(Exec(c, s, acts), |s.submits|)
    {
      PromiseRun(c, s, acts, |s.submits|, budget);
    }
  }

  // --------------------------------------------- what the pool may turn down

  lemma {:induction false} QuietHasNoCaller(c: Conf, s: State, acts: seq<Action>)
    requires IsRun(c, s, acts) && QuietRun(c, s, acts)
    ensures NoCaller(acts)
    decreases |acts|
  {
    if acts != [] {
      QuietHasNoCaller(c, Apply(c, s, acts[0]), acts[1..]);
      assert forall i | 1 <= i < |acts| :: acts[i] == acts[1..][i - 1];
    }
  }

  /** Nothing is left but workers that take nothing. */
  ghost predicate NothingParked(c: Conf, s: State, s': State) {
    && s'.control == Running && s'.submits == s.submits
    && s'.current == s.current && s'.queue == s.queue
    && Sum(s'.workers, ParkedBit) == 0
  }

  /** In an elastic pool the keep-alives of all parked workers can expire, and the
      workers can take their time to find out whether they may leave. */
  lemma {:induction false} AllExpire(c: Conf, s: State) returns (acts: seq<Action>)
    requires c.Valid() && Reachable(c, s) && s.control == Running && !c.Fixed()
    ensures IsRun(c, s, acts) && NoCaller(acts) && NothingParked(c, s, Exec(c, s, acts))
    decreases Sum(s.workers, ParkedBit)
  {
    SumBounds(s.workers, ParkedBit);
    if Sum(s.workers, ParkedBit) == 0 {
      acts := [];
    } else {
      var w := SumPositive(s.workers, ParkedBit);
      var a := ByWorker(w, Tick);
      SumUpdate(s.workers, w, TickerFired, ParkedBit);
      ReachableStep(c, s, a);
      var rest := AllExpire(c, Apply(c, s, a));
      acts := [a] + rest;
      assert acts[1..] == rest;
    }
  }

  lemma RefusedSomeTime(c: Conf, s: State) returns (acts: seq<Action>)
    requires c.Valid() && Reachable(c, s) && s.control == Running && NoReaders(s)
    ensures 0 <= SureRoom(c, s)
    ensures IsRun(c, s, acts) && NoCaller(acts)
    ensures Exec(c, s, acts).submits == s.submits + AllAccepted(SureRoom(c, s)) + [Returning(Refused)]
  {
    var first := [];
    if !c.Fixed() {
      first := AllExpire(c, s);
    }
    var s' := Exec(c, s, first);
    ReachableRun(c, s, first);
    assert Room(c, s') == SureRoom(c, s);
    var second := BeyondRoomRefused(c, s');
    QuietHasNoCaller(c, s', second);
    RunAppend(c, s, first, second);
    acts := first + second;
  }

  // --------------------------------------------------------------- theorems

  /** With no submission in progress, the pool takes n submissions in every
      interleaving, concurrent ones included, exactly if n is at most the sure
      room. */
  lemma SureRoomIsExact(c: Conf, s: State, n: nat)
    requires c.Valid() && Reachable(c, s) && s.control == Running && NoReaders(s)
    ensures TakesAlways(c, s, n) <==> n <= SureRoom(c, s)
  {
    if n <= SureRoom(c, s) {
      SureRoomTaken(c, s, n);
    } else {
      var acts := RefusedSomeTime(c, s);
      var s' := Exec(c, s, acts);
      assert WasTurnedDown(s'.submits[|s'.submits| - 1]);
      assert !NoneTurnedDown(s', |s.submits|);
    }
  }

  /** The number of available workers is a batch size that is always accepted
      exactly if free space in the buffer makes up for the idle workers, in a
      fixed pool for those that are not parked. */
  lemma AvailableIsPromise(c: Conf, s: State)
    requires c.Valid() && Reachable(c, s) && s.control == Running && NoReaders(s)
    ensures 0 <= NumberOfAvailableWorker(c, s)
    ensures TakesAlways(c, s, NumberOfAvailableWorker(c, s)) <==>
            s.idle - (if c.Fixed() then Sum(s.workers, ParkedBit) else 0) <= c.queueSize - |s.queue|
  {
    CountersInBounds(c, s);
    SureRoomIsExact(c, s, NumberOfAvailableWorker(c, s));
  }

  /** A fixed pool that has settled keeps its promise in every interleaving. */
  lemma FixedKeepsPromise(c: Conf, s: State)
    requires c.Valid() && Reachable(c, s) && Settled(s) && c.Fixed()
    ensures 0 <= NumberOfAvailableWorker(c, s) && TakesAlways(c, s, NumberOfAvailableWorker(c, s))
  {
    ReachableInv(c, s);
    SettledCredits(c, s);
    AvailableIsPromise(c, s);
  }

  /** An elastic pool without a buffer keeps it, settled or not, only if no worker
      is idle: an idle worker may expire just before it is handed a job. */
  lemma ElasticBreaksPromise(c: Conf, s: State) returns (acts: seq<Action>)
    requires c.Valid() && Reachable(c, s) && s.control == Running && NoReaders(s)
    requires !c.Fixed() && c.queueSize == 0 && 0 < s.idle
    ensures IsRun(c, s, acts) && NoCaller(acts)
    ensures |Exec(c, s, acts).submits| <= |s.submits| + NumberOfAvailableWorker(c, s)
    ensures !NoneTurnedDown(Exec(c, s, acts), |s.submits|)
  {
    CountersInBounds(c, s);
    QueueWithinSize(c, s);
    acts := RefusedSomeTime(c, s);
    var s' := Exec(c, s, acts);
    assert WasTurnedDown(s'.submits[|s'.submits| - 1]);
  }
}
