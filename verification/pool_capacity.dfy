/** How many submissions of one caller the pool takes while no parked worker is
    woken by its keep-alive. */
module PoolCapacity {
  import opened Sums
  import opened PoolModel
  import opened PoolInvariant
  import opened PoolTheorems

  function ParkedBit(p: Phase): int {
    Bit(p == Parked)
  }

  /** One submission for each parked worker and one for each worker that may
      still be created. */
  ghost function Credits(c: Conf, s: State): int {
    Sum(s.workers, ParkedBit) + c.max - s.current
  }

  /** The same, and one for each free place of the buffer. */
  ghost function Room(c: Conf, s: State): int {
    Credits(c, s) + c.queueSize - |s.queue|
  }

  /** Every worker in the idle count is parked and no submission is half-way. */
  predicate Settled(s: State) {
    && s.control == Running
    && NoReaders(s)
    && forall w | 0 <= w < |s.workers| :: IdleCounted(s.workers[w]) == 1 ==> s.workers[w] == Parked
  }

  /** An action other than those of one submitter: no second submission while
      one is in progress, no Stop, and no keep-alive expiry of a parked worker.
      Everything the workers do with their jobs may interleave. */
  predicate Quiet(s: State, a: Action) {
    match a
    case ByCaller(_) => false
    case SubmitCall => NoReaders(s)
    case ByWorker(w, Tick) => w < |s.workers| && s.workers[w] != Parked
    case _ => true
  }

  predicate QuietRun(c: Conf, s: State, acts: seq<Action>)
    requires IsRun(c, s, acts)
    decreases |acts|
  {
    acts == [] || (Quiet(s, acts[0]) && QuietRun(c, Apply(c, s, acts[0]), acts[1..]))
  }

  /** The submission in progress, if any, is the last one made. */
  predicate OneSubmitter(s: State) {
    forall t | 0 <= t < |s.submits| - 1 :: !HoldsReadLock(s.submits[t])
  }

  /** 1 while the last submission has not yet taken its credit. */
  function Undecided(s: State): int {
    Bit(s.submits != [] && s.submits[|s.submits| - 1] in {Holding, Sending, TrySpawn})
  }

  predicate NoneTurnedDown(s: State, base: nat) {
    forall t | base <= t < |s.submits| :: !WasTurnedDown(s.submits[t])
  }

  /** No quiet run with up to n submissions has one that is turned down. */
  ghost predicate TakesAll(c: Conf, s: State, n: nat) {
    forall acts | IsRun(c, s, acts) && QuietRun(c, s, acts) && |Exec(c, s, acts).submits| <= |s.submits| + n ::
      NoneTurnedDown(Exec(c, s, acts), |s.submits|)
  }

  // --------------------------------------------------- what the pool takes

  /** base is the number of submissions made before the batch, budget the size
      of the batch. */
  ghost predicate WithinBudget(c: Conf, s: State, base: nat, budget: nat) {
    && NoneTurnedDown(s, base)
    && (forall t | 0 <= t < |s.submits| && s.submits[t] == TrySpawn :: s.current < c.max)
    && budget - (|s.submits| - base) + Undecided(s) <= Room(c, s)
  }

  ghost predicate BatchOk(c: Conf, s: State, base: nat, budget: nat) {
    && base <= |s.submits|
    && OneSubmitter(s)
    && (|s.submits| == base ==> NoReaders(s))
    && (|s.submits| - base <= budget ==> WithinBudget(c, s, base, budget))
  }

  lemma CallBatch(c: Conf, s: State, base: nat, budget: nat)
    requires BatchOk(c, s, base, budget) && NoReaders(s) && WriterFree(s.control)
    ensures BatchOk(c, Apply(c, s, SubmitCall), base, budget)
  {
  }

  /** The submission in progress moves on to p, at the price of a place if it
      was undecided before. */
  lemma MovedBatch(c: Conf, s: State, s': State, p: SubmitPc, base: nat, budget: nat)
    requires BatchOk(c, s, base, budget) && s.submits != [] && !NoReaders(s)
    requires s'.submits == s.submits[|s.submits| - 1 := p]
    requires |s.submits| - base <= budget && WithinBudget(c, s, base, budget) ==>
      && !WasTurnedDown(p)
      && (p == TrySpawn ==> s'.current < c.max)
      && Undecided(s') - Undecided(s) <= Room(c, s') - Room(c, s)
    ensures BatchOk(c, s', base, budget)
  {
  }

  lemma HandoffBatch(c: Conf, s: State, t: Ticket, w: nat, base: nat, budget: nat)
    requires BatchOk(c, s, base, budget)
    requires t < |s.submits| && SubmitEnabled(c, s, s.submits[t], SendHandoff(w))
    ensures BatchOk(c, SubmitApply(c, s, t, SendHandoff(w)), base, budget)
  {
    SumUpdate(s.workers, w, Took(t), ParkedBit);
    MovedBatch(c, s, SubmitApply(c, s, t, SendHandoff(w)), Returning(Accepted), base, budget);
  }

  lemma BufferBatch(c: Conf, s: State, t: Ticket, base: nat, budget: nat)
    requires BatchOk(c, s, base, budget)
    requires t < |s.submits| && SubmitEnabled(c, s, s.submits[t], SendBuffer)
    ensures BatchOk(c, SubmitApply(c, s, t, SendBuffer), base, budget)
  {
    MovedBatch(c, s, SubmitApply(c, s, t, SendBuffer), Returning(Accepted), base, budget);
  }

  /** With room left and neither a parked worker nor free space, the pool is
      elastic and has not reached its maximum. */
  lemma DefaultBatch(c: Conf, s: State, t: Ticket, base: nat, budget: nat)
    requires Inv(c, s) && s.control == Running && BatchOk(c, s, base, budget)
    requires t < |s.submits| && SubmitEnabled(c, s, s.submits[t], SendDefault)
    ensures BatchOk(c, SubmitApply(c, s, t, SendDefault), base, budget)
  {
    SumZero(s.workers, ParkedBit);
    var p := if c.Fixed() then Returning(Refused) else TrySpawn;
    MovedBatch(c, s, SubmitApply(c, s, t, SendDefault), p, base, budget);
  }

  lemma CompareBatch(c: Conf, s: State, t: Ticket, base: nat, budget: nat)
    requires BatchOk(c, s, base, budget)
    requires t < |s.submits| && SubmitEnabled(c, s, s.submits[t], Compare)
    ensures BatchOk(c, SubmitApply(c, s, t, Compare), base, budget)
  {
    var p := if s.current < c.max then WgAdd else Returning(Refused);
    MovedBatch(c, s, SubmitApply(c, s, t, Compare), p, base, budget);
  }

  lemma OtherBatch(c: Conf, s: State, t: Ticket, e: SubmitStep, base: nat, budget: nat)
    requires LifecycleOk(s) && s.control == Running && BatchOk(c, s, base, budget)
    requires t < |s.submits| && SubmitEnabled(c, s, s.submits[t], e) && e in {CheckRunning, AddToWg, GoWorker, Unlock}
    ensures BatchOk(c, SubmitApply(c, s, t, e), base, budget)
  {
    if e == GoWorker {
      SumAppend(s.workers, Spawned(Some(t)), ParkedBit);
    }
    MovedBatch(c, s, SubmitApply(c, s, t, e), NextSubmit(c, s, s.submits[t], e), base, budget);
  }

  lemma SubmitBatch(c: Conf, s: State, t: Ticket, e: SubmitStep, base: nat, budget: nat)
    requires Inv(c, s) && s.control == Running && BatchOk(c, s, base, budget)
    requires t < |s.submits| && SubmitEnabled(c, s, s.submits[t], e)
    ensures BatchOk(c, SubmitApply(c, s, t, e), base, budget)
  {
    match e
    case SendHandoff(w) => HandoffBatch(c, s, t, w, base, budget);
    case SendBuffer => BufferBatch(c, s, t, base, budget);
    case SendDefault => DefaultBatch(c, s, t, base, budget);
    case Compare => CompareBatch(c, s, t, base, budget);
    case _ => OtherBatch(c, s, t, e, base, budget);
  }

  /** Whatever a worker does except leaving its select by an expiry, the room
      does not get smaller. */
  lemma WorkerRoom(c: Conf, s: State, w: nat, k: WorkerStep)
    requires Quiet(s, ByWorker(w, k))
    requires w < |s.workers| && WorkerEnabled(c, s, s.workers[w], k)
    ensures Room(c, s) <= Room(c, WorkerApply(c, s, w, k))
    ensures WorkerApply(c, s, w, k).current <= s.current
  {
    SumUpdate(s.workers, w, NextPhase(c, s, s.workers[w], k), ParkedBit);
  }

  lemma WorkerBatch(c: Conf, s: State, w: nat, k: WorkerStep, base: nat, budget: nat)
    requires BatchOk(c, s, base, budget) && Quiet(s, ByWorker(w, k))
    requires w < |s.workers| && WorkerEnabled(c, s, s.workers[w], k)
    ensures BatchOk(c, WorkerApply(c, s, w, k), base, budget)
  {
    WorkerRoom(c, s, w, k);
    assert WorkerApply(c, s, w, k).submits == s.submits;
  }

  lemma BatchStep(c: Conf, s: State, a: Action, base: nat, budget: nat)
    requires Inv(c, s) && s.control == Running && BatchOk(c, s, base, budget)
    requires Enabled(c, s, a) && Quiet(s, a)
    ensures BatchOk(c, Apply(c, s, a), base, budget)
    ensures Apply(c, s, a).control == Running
  {
    match a
    case ByCaller(x) =>
    case ByStarter(x) =>
    case SubmitCall => CallBatch(c, s, base, budget);
    case BySubmit(t, e) => SubmitBatch(c, s, t, e, base, budget);
    case ByWorker(w, k) => WorkerBatch(c, s, w, k, base, budget);
  }

  lemma {:induction false} BatchRun(c: Conf, s: State, acts: seq<Action>, base: nat, budget: nat)
    requires c.Valid() && Inv(c, s) && s.control == Running && BatchOk(c, s, base, budget)
    requires IsRun(c, s, acts) && QuietRun(c, s, acts)
    ensures BatchOk(c, Exec(c, s, acts), base, budget)
    decreases |acts|
  {
    if acts != [] {
      BatchStep(c, s, acts[0], base, budget);
      InvStep(c, s, acts[0]);
      BatchRun(c, Apply(c, s, acts[0]), acts[1..], base, budget);
    }
  }

  // ---------------------------------------------- what the pool turns down

  lemma Before(c: Conf, s: State, a: Action, rest: seq<Action>) returns (acts: seq<Action>)
    requires Enabled(c, s, a) && Quiet(s, a)
    requires IsRun(c, Apply(c, s, a), rest) && QuietRun(c, Apply(c, s, a), rest)
    ensures IsRun(c, s, acts) && QuietRun(c, s, acts)
    ensures Exec(c, s, acts) == Exec(c, Apply(c, s, a), rest)
  {
    acts := [a] + rest;
    assert acts[1..] == rest;
  }

  lemma {:induction false} Joined(c: Conf, s: State, first: seq<Action>, second: seq<Action>)
    returns (acts: seq<Action>)
    requires IsRun(c, s, first) && QuietRun(c, s, first)
    requires IsRun(c, Exec(c, s, first), second) && QuietRun(c, Exec(c, s, first), second)
    ensures IsRun(c, s, acts) && QuietRun(c, s, acts)
    ensures Exec(c, s, acts) == Exec(c, Exec(c, s, first), second)
    decreases |first|
  {
    if first == [] {
      acts := second;
    } else {
      var rest := Joined(c, Apply(c, s, first[0]), first[1..], second);
      acts := Before(c, s, first[0], rest);
    }
  }

  /** A submission that meets neither a parked worker nor free space nor room
      for another worker is turned down. */
  lemma RefusalOf(c: Conf, s: State) returns (acts: seq<Action>)
    requires s.control == Running && s.isRunning && NoReaders(s) && NoneParked(s)
    requires c.queueSize <= |s.queue| && (c.Fixed() || c.max <= s.current)
    ensures IsRun(c, s, acts) && QuietRun(c, s, acts)
    ensures Exec(c, s, acts).submits == s.submits + [Returning(Refused)]
    ensures Exec(c, s, acts).workers == s.workers
  {
    var t := |s.submits|;
    var s1 := Apply(c, s, SubmitCall);
    var s2 := Apply(c, s1, BySubmit(t, CheckRunning));
    var s3 := Apply(c, s2, BySubmit(t, SendDefault));
    assert s3.submits == s.submits + [if c.Fixed() then Returning(Refused) else TrySpawn];
    acts := if c.Fixed() then [] else [BySubmit(t, Compare)];
    assert IsRun(c, s3, acts) && QuietRun(c, s3, acts);
    assert Exec(c, s3, acts).submits == s.submits + [Returning(Refused)];
    assert Exec(c, s3, acts).workers == s.workers;
    acts := Before(c, s2, BySubmit(t, SendDefault), acts);
    acts := Before(c, s1, BySubmit(t, CheckRunning), acts);
    acts := Before(c, s, SubmitCall, acts);
  }

  /** Without room the next submission is turned down if no worker moves. */
  lemma NoRoomRefused(c: Conf, s: State) returns (acts: seq<Action>)
    requires c.Valid() && Reachable(c, s) && s.control == Running && NoReaders(s) && Room(c, s) <= 0
    ensures IsRun(c, s, acts) && QuietRun(c, s, acts)
    ensures Exec(c, s, acts).submits == s.submits + [Returning(Refused)]
    ensures Exec(c, s, acts).workers == s.workers
  {
    ReachableInv(c, s);
    SumBounds(s.workers, ParkedBit);
    forall w | 0 <= w < |s.workers|
      ensures s.workers[w] != Parked
    {
      assert ParkedBit(s.workers[w]) <= 0;
    }
    acts := RefusalOf(c, s);
  }

  /** No worker has moved: some that were parked have been handed a job, and some
      have been created for one. */
  predicate WorkersKept(ws: seq<Phase>, ws': seq<Phase>) {
    && |ws| <= |ws'|
    && (forall w | 0 <= w < |ws| :: ws'[w] == ws[w] || (ws[w] == Parked && ws'[w].Took?))
    && (forall w | |ws| <= w < |ws'| :: ws'[w].Spawned? && ws'[w].initial.Some?)
  }

  lemma KeptTwice(ws: seq<Phase>, ws': seq<Phase>, ws'': seq<Phase>)
    requires WorkersKept(ws, ws') && WorkersKept(ws', ws'')
    ensures WorkersKept(ws, ws'')
  {
  }

  /** One more submission has been accepted, for one place. */
  ghost predicate OneMore(c: Conf, s: State, s': State) {
    && s'.control == Running
    && s'.submits == s.submits + [Returned(Accepted)]
    && Room(c, s') == Room(c, s) - 1
    && WorkersKept(s.workers, s'.workers)
  }

  /** A submission at its select, all others being over. */
  predicate AtSelect(s: State, t: Ticket) {
    && s.control == Running
    && t == |s.submits| - 1 && s.submits[t] == Sending
    && OneSubmitter(s)
  }

  /** The submission is over and was accepted, for one place. */
  ghost predicate Taken(c: Conf, s: State, s': State, t: Ticket) {
    && s'.control == Running && t < |s.submits|
    && s'.submits == s.submits[t := Returned(Accepted)]
    && Room(c, s') == Room(c, s) - 1
    && WorkersKept(s.workers, s'.workers)
  }

  lemma HandedOver(c: Conf, s: State, t: Ticket, w: nat) returns (acts: seq<Action>)
    requires AtSelect(s, t) && w < |s.workers| && s.workers[w] == Parked
    ensures IsRun(c, s, acts) && QuietRun(c, s, acts) && Taken(c, s, Exec(c, s, acts), t)
  {
    var s1 := Apply(c, s, BySubmit(t, SendHandoff(w)));
    SumUpdate(s.workers, w, Took(t), ParkedBit);
    acts := Before(c, s1, BySubmit(t, Unlock), []);
    acts := Before(c, s, BySubmit(t, SendHandoff(w)), acts);
  }

  lemma Buffered(c: Conf, s: State, t: Ticket) returns (acts: seq<Action>)
    requires AtSelect(s, t) && NoneParked(s) && |s.queue| < c.queueSize
    ensures IsRun(c, s, acts) && QuietRun(c, s, acts) && Taken(c, s, Exec(c, s, acts), t)
  {
    var s1 := Apply(c, s, BySubmit(t, SendBuffer));
    acts := Before(c, s1, BySubmit(t, Unlock), []);
    acts := Before(c, s, BySubmit(t, SendBuffer), acts);
  }

  /** From the decision to create a worker to the end. */
  lemma WorkerCreated(c: Conf, s: State, t: Ticket) returns (acts: seq<Action>)
    requires s.control == Running && t < |s.submits| && s.submits[t] == WgAdd
    ensures IsRun(c, s, acts) && QuietRun(c, s, acts)
    ensures var s' := Exec(c, s, acts);
      && s'.control == Running && s'.submits == s.submits[t := Returned(Accepted)]
      && s'.workers == s.workers + [Spawned(Some(t))] && s'.current == s.current && s'.queue == s.queue
  {
    var s1 := Apply(c, s, BySubmit(t, AddToWg));
    var s2 := Apply(c, s1, BySubmit(t, GoWorker));
    acts := Before(c, s2, BySubmit(t, Unlock), []);
    acts := Before(c, s1, BySubmit(t, GoWorker), acts);
    acts := Before(c, s, BySubmit(t, AddToWg), acts);
  }

  /** The steps from the select to the decision to create a worker. */
  lemma WorkerDecided(c: Conf, s: State, t: Ticket, rest: seq<Action>) returns (acts: seq<Action>)
    requires AtSelect(s, t) && NoneParked(s) && c.queueSize <= |s.queue| && !c.Fixed() && s.current < c.max
    requires var s' := s.(submits := s.submits[t := WgAdd], current := s.current + 1, idle := s.idle + 1);
      IsRun(c, s', rest) && QuietRun(c, s', rest)
    ensures var s' := s.(submits := s.submits[t := WgAdd], current := s.current + 1, idle := s.idle + 1);
      IsRun(c, s, acts) && QuietRun(c, s, acts) && Exec(c, s, acts) == Exec(c, s', rest)
  {
    var s1 := Apply(c, s, BySubmit(t, SendDefault));
    assert s1 == s.(submits := s.submits[t := TrySpawn]);
    var s' := s.(submits := s.submits[t := WgAdd], current := s.current + 1, idle := s.idle + 1);
    assert Apply(c, s1, BySubmit(t, Compare)) == s';
    acts := Before(c, s1, BySubmit(t, Compare), rest);
    acts := Before(c, s, BySubmit(t, SendDefault), acts);
  }

  lemma SpawnedFor(c: Conf, s: State, t: Ticket) returns (acts: seq<Action>)
    requires AtSelect(s, t) && NoneParked(s) && c.queueSize <= |s.queue| && !c.Fixed() && s.current < c.max
    ensures IsRun(c, s, acts) && QuietRun(c, s, acts) && Taken(c, s, Exec(c, s, acts), t)
  {
    var s' := s.(submits := s.submits[t := WgAdd], current := s.current + 1, idle := s.idle + 1);
    SumAppend(s.workers, Spawned(Some(t)), ParkedBit);
    var rest := WorkerCreated(c, s', t);
    acts := WorkerDecided(c, s, t, rest);
    assert s'.submits[t := Returned(Accepted)] == s.submits[t := Returned(Accepted)];
  }

  lemma TakenFrom(c: Conf, s: State, t: Ticket) returns (acts: seq<Action>)
    requires AtSelect(s, t) && 0 < Room(c, s) && (c.Fixed() ==> s.current == c.max)
    ensures IsRun(c, s, acts) && QuietRun(c, s, acts) && Taken(c, s, Exec(c, s, acts), t)
  {
    if w: nat :| w < |s.workers| && s.workers[w] == Parked {
      acts := HandedOver(c, s, t, w);
    } else if |s.queue| < c.queueSize {
      acts := Buffered(c, s, t);
    } else {
      SumZero(s.workers, ParkedBit);
      acts := SpawnedFor(c, s, t);
    }
  }

  /** While there is room, a submission can be accepted at the price of one
      place, without any worker moving. */
  lemma OneTaken(c: Conf, s: State) returns (acts: seq<Action>)
    requires c.Valid() && Reachable(c, s) && s.control == Running && NoReaders(s) && 0 < Room(c, s)
    ensures IsRun(c, s, acts) && QuietRun(c, s, acts) && OneMore(c, s, Exec(c, s, acts))
  {
    var t := |s.submits|;
    var s1 := Apply(c, s, SubmitCall);
    ReachableInv(c, s);
    var s2 := Apply(c, s1, BySubmit(t, CheckRunning));
    acts := TakenFrom(c, s2, t);
    acts := Before(c, s1, BySubmit(t, CheckRunning), acts);
    acts := Before(c, s, SubmitCall, acts);
  }

  lemma RoomNonNegative(c: Conf, s: State)
    requires c.Valid() && Reachable(c, s)
    ensures 0 <= Room(c, s)
  {
    ReachableInv(c, s);
    SumBounds(s.workers, ParkedBit);
  }

  /** n submissions that were accepted. */
  function AllAccepted(n: nat): (r: seq<SubmitPc>)
    ensures |r| == n && forall i | 0 <= i < n :: r[i] == Returned(Accepted)
  {
    if n == 0 then [] else [Returned(Accepted)] + AllAccepted(n - 1)
  }

  lemma {:induction false} RefusedAfter(c: Conf, s: State, room: nat) returns (acts: seq<Action>)
    requires c.Valid() && Reachable(c, s) && s.control == Running && NoReaders(s) && Room(c, s) == room
    ensures IsRun(c, s, acts) && QuietRun(c, s, acts)
    ensures Exec(c, s, acts).submits == s.submits + AllAccepted(room) + [Returning(Refused)]
    ensures WorkersKept(s.workers, Exec(c, s, acts).workers)
    decreases room
  {
    if room == 0 {
      acts := NoRoomRefused(c, s);
      assert s.submits + AllAccepted(0) == s.submits;
    } else {
      var first := OneTaken(c, s);
      var s' := Exec(c, s, first);
      ReachableRun(c, s, first);
      var second := RefusedAfter(c, s', room - 1);
      acts := Joined(c, s, first, second);
      KeptTwice(s.workers, s'.workers, Exec(c, s', second).workers);
      assert s.submits + [Returned(Accepted)] + AllAccepted(room - 1) == s.submits + AllAccepted(room);
    }
  }

  /** If the workers do not move, as many submissions are accepted as there is
      room, and the next one is turned down. */
  lemma BeyondRoomRefused(c: Conf, s: State) returns (acts: seq<Action>)
    requires c.Valid() && Reachable(c, s) && s.control == Running && NoReaders(s)
    ensures 0 <= Room(c, s)
    ensures IsRun(c, s, acts) && QuietRun(c, s, acts)
    ensures Exec(c, s, acts).submits == s.submits + AllAccepted(Room(c, s)) + [Returning(Refused)]
    ensures WorkersKept(s.workers, Exec(c, s, acts).workers)
  {
    RoomNonNegative(c, s);
    acts := RefusedAfter(c, s, Room(c, s));
  }

  // --------------------------------------------------------------- theorems

  lemma QueueWithinSize(c: Conf, s: State)
    requires c.Valid() && Reachable(c, s)
    ensures |s.queue| <= c.queueSize
  {
    ReachableInv(c, s);
  }

  lemma RoomTaken(c: Conf, s: State, budget: nat)
    requires c.Valid() && Reachable(c, s) && s.control == Running && NoReaders(s) && budget <= Room(c, s)
    ensures TakesAll(c, s, budget)
  {
    ReachableInv(c, s);
    forall acts | IsRun(c, s, acts) && QuietRun(c, s, acts) && |Exec(c, s, acts).submits| <= |s.submits| + budget
      ensures NoneTurnedDown(Exec(c, s, acts), |s.submits|)
    {
      BatchRun(c, s, acts, |s.submits|, budget);
    }
  }

  /** With no submission in progress, the pool takes a batch in every quiet run
      exactly if there is room for it. */
  lemma RoomIsExact(c: Conf, s: State, budget: nat)
    requires c.Valid() && Reachable(c, s) && s.control == Running && NoReaders(s)
    ensures TakesAll(c, s, budget) <==> budget <= Room(c, s)
  {
    if budget <= Room(c, s) {
      RoomTaken(c, s, budget);
    } else {
      var acts := BeyondRoomRefused(c, s);
      var s' := Exec(c, s, acts);
      assert WasTurnedDown(s'.submits[|s'.submits| - 1]);
      assert !NoneTurnedDown(s', |s.submits|);
    }
  }

  /** The buffer left aside, as many submissions as there are credits are
      accepted in every quiet run. */
  lemma CreditsAccepted(c: Conf, s: State, budget: nat)
    requires c.Valid() && Reachable(c, s) && s.control == Running && NoReaders(s)
    requires budget <= Credits(c, s)
    ensures TakesAll(c, s, budget)
  {
    QueueWithinSize(c, s);
    RoomIsExact(c, s, budget);
  }

  lemma SettledCredits(c: Conf, s: State)
    requires CountersExact(c, s) && Settled(s)
    ensures Credits(c, s) == NumberOfAvailableWorker(c, s)
  {
    SumMonotone(s.workers, IdleCounted, ParkedBit);
    SumMonotone(s.workers, ParkedBit, IdleCounted);
    SumZero(s.submits, MidSpawn);
  }

  /** The number of available workers read in a settled pool is a number of jobs
      that it takes in every quiet run. */
  lemma BatchAccepted(c: Conf, s: State, budget: nat)
    requires c.Valid() && Reachable(c, s) && Settled(s)
    requires budget <= NumberOfAvailableWorker(c, s)
    ensures TakesAll(c, s, budget)
  {
    ReachableInv(c, s);
    SettledCredits(c, s);
    CreditsAccepted(c, s, budget);
  }

  /** The number of available workers is a promise for quiet runs exactly if the
      idle workers that are not parked are made up for by free space in the
      buffer. */
  lemma AvailableIfQuiet(c: Conf, s: State)
    requires c.Valid() && Reachable(c, s) && s.control == Running && NoReaders(s)
    ensures 0 <= NumberOfAvailableWorker(c, s)
    ensures TakesAll(c, s, NumberOfAvailableWorker(c, s)) <==>
            s.idle - Sum(s.workers, ParkedBit) <= c.queueSize - |s.queue|
  {
    CountersInBounds(c, s);
    RoomIsExact(c, s, NumberOfAvailableWorker(c, s));
  }

  // ------------------------------------- available workers that take nothing

  predicate AllSpawned(s: State) {
    forall w | 0 <= w < |s.workers| :: s.workers[w].Spawned?
  }

  lemma {:induction false} AllInitialSpawned(c: Conf, s: State) returns (s': State)
    requires Reachable(c, s) && s.control.StartSpawn? && s.submits == [] && AllSpawned(s)
    ensures Reachable(c, s') && s'.control == Running && s'.submits == [] && AllSpawned(s')
    decreases s.control.left
  {
    if s.control.left == 0 {
      s' := Then(c, s, ByCaller(StartReturn));
    } else {
      s' := Then(c, s, ByCaller(StartSpawnOne));
      s' := AllInitialSpawned(c, s');
    }
  }

  /** A pool just started, whose workers have not run yet. */
  lemma JustStarted(c: Conf) returns (s: State)
    requires c.Valid()
    ensures Reachable(c, s) && s.control == Running && s.submits == [] && AllSpawned(s)
  {
    ReachableInit(c);
    s := Then(c, INIT, ByCaller(StartLock));
    s := Then(c, s, ByCaller(StartCount));
    s := Then(c, s, ByCaller(StartWgAdd));
    s := AllInitialSpawned(c, s);
  }

  lemma {:induction false} FilledUp(c: Conf, s: State) returns (s': State)
    requires c.Valid() && Reachable(c, s) && s.control == Running && NoReaders(s) && AllSpawned(s)
    ensures Reachable(c, s') && s'.control == Running && NoReaders(s') && AllSpawned(s')
    ensures Room(c, s') == 0
    decreases Room(c, s)
  {
    RoomNonNegative(c, s);
    if Room(c, s) == 0 {
      s' := s;
    } else {
      var acts := OneTaken(c, s);
      ReachableRun(c, s, acts);
      s' := FilledUp(c, Exec(c, s, acts));
    }
  }

  lemma SpawnedAreIdle(c: Conf, s: State)
    requires c.Valid() && Inv(c, s) && s.control == Running && AllSpawned(s) && Room(c, s) == 0
    ensures NumberOfAvailableWorker(c, s) == c.max
  {
    SumMonotone(s.workers, IdleCounted, Counted);
    SumMonotone(s.workers, Counted, IdleCounted);
    SumZero(s.workers, ParkedBit);
  }

  /** In every configuration the number of available workers can be at its highest
      while the next submission is refused: workers that have not parked yet are
      available but take nothing. */
  lemma AvailableButRefused(c: Conf) returns (s: State, acts: seq<Action>)
    requires c.Valid()
    ensures Reachable(c, s) && s.control == Running && NoReaders(s)
    ensures NumberOfAvailableWorker(c, s) == c.max
    ensures IsRun(c, s, acts) && QuietRun(c, s, acts)
    ensures Exec(c, s, acts).submits == s.submits + [Returning(Refused)]
  {
    s := JustStarted(c);
    s := FilledUp(c, s);
    ReachableInv(c, s);
    SpawnedAreIdle(c, s);
    acts := NoRoomRefused(c, s);
  }
}
