/** A job: one message that is deleted from its queue and then handled, at most
    once however many callers execute it. */
module Jobs {
  import opened Sums

  datatype JobState = Initial | Executing | Finished | Error

  /** Effects outside the job, with the answer of the environment. */
  datatype Effect = Delete(ok: bool) | Handle(ok: bool) | SendResult

  /** Where a call of Execute is. */
  datatype Pc =
    | Waiting            // for the mutex
    | Locked             // mutex held, state not yet looked at
    | Deleting
    | Checking           // deleted; owner not yet compared
    | Handling
    | Sending
    | Unlocking(failed: bool)
    | Returned(failed: bool)

  /** attribute is the owner named by the message, if it has attributes. */
  datatype Message = Message(attribute: Owner)
  datatype Owner = NoAttributes | OwnedBy(id: string)

  datatype State = State(job: JobState, calls: seq<Pc>, log: seq<Effect>)

  const INIT := State(Initial, [], [])

  datatype Action =
    | Call
    | Acquire(c: nat)
    | LookAtState(c: nat)
    | DeleteMessage(c: nat, ok: bool)
    | CheckOwner(c: nat)
    | HandleMessage(c: nat, ok: bool)
    | StartSending(c: nat)
    | Release(c: nat)

  predicate Holds(p: Pc) {
    !p.Waiting? && !p.Returned?
  }

  predicate MutexFree(s: State) {
    forall c | 0 <= c < |s.calls| :: !Holds(s.calls[c])
  }

  predicate Matches(m: Message, ownerId: string) {
    m.attribute == OwnedBy(ownerId)
  }

  predicate Enabled(s: State, a: Action) {
    match a
    case Call => true
    case Acquire(c) => c < |s.calls| && s.calls[c] == Waiting && MutexFree(s)
    case LookAtState(c) => c < |s.calls| && s.calls[c] == Locked
    case DeleteMessage(c, _) => c < |s.calls| && s.calls[c] == Deleting
    case CheckOwner(c) => c < |s.calls| && s.calls[c] == Checking
    case HandleMessage(c, _) => c < |s.calls| && s.calls[c] == Handling
    case StartSending(c) => c < |s.calls| && s.calls[c] == Sending
    case Release(c) => c < |s.calls| && s.calls[c].Unlocking?
  }

  function Apply(m: Message, ownerId: string, s: State, a: Action): State
    requires Enabled(s, a)
  {
    match a
    case Call => s.(calls := s.calls + [Waiting])
    case Acquire(c) => s.(calls := s.calls[c := Locked])
    case LookAtState(c) =>
      if s.job != Initial then s.(calls := s.calls[c := Unlocking(true)])
      else s.(job := Executing, calls := s.calls[c := Deleting])
    case DeleteMessage(c, ok) =>
      if ok then s.(calls := s.calls[c := Checking], log := s.log + [Delete(true)])
      else s.(job := Error, calls := s.calls[c := Unlocking(true)], log := s.log + [Delete(false)])
    case CheckOwner(c) =>
      if Matches(m, ownerId) then s.(calls := s.calls[c := Handling])
      else s.(job := Error, calls := s.calls[c := Unlocking(true)])
    case HandleMessage(c, ok) =>
      if ok then s.(calls := s.calls[c := Sending], log := s.log + [Handle(true)])
      else s.(job := Error, calls := s.calls[c := Unlocking(true)], log := s.log + [Handle(false)])
    case StartSending(c) =>
      s.(job := Finished, calls := s.calls[c := Unlocking(false)], log := s.log + [SendResult])
    case Release(c) => s.(calls := s.calls[c := Returned(s.calls[c].failed)])
  }

  predicate IsRun(m: Message, ownerId: string, s: State, acts: seq<Action>)
    decreases |acts|
  {
    acts == [] || (Enabled(s, acts[0]) && IsRun(m, ownerId, Apply(m, ownerId, s, acts[0]), acts[1..]))
  }

  function Exec(m: Message, ownerId: string, s: State, acts: seq<Action>): State
    requires IsRun(m, ownerId, s, acts)
    decreases |acts|
  {
    if acts == [] then s else Exec(m, ownerId, Apply(m, ownerId, s, acts[0]), acts[1..])
  }

  // -------------------------------------------------------------- invariant

  function HoldBit(p: Pc): int {
    if Holds(p) then 1 else 0
  }

  /** The call succeeds: it has returned nil or is about to. */
  function Success(p: Pc): int {
    if p == Unlocking(false) || p == Returned(false) then 1 else 0
  }

  function InsideBit(p: Pc): int {
    if p in {Deleting, Checking, Handling, Sending} then 1 else 0
  }

  /** What a call that is inside has done so far. */
  predicate PcOk(m: Message, ownerId: string, s: State, p: Pc) {
    match p
    case Deleting => s.log == []
    case Checking => s.log == [Delete(true)]
    case Handling => s.log == [Delete(true)] && Matches(m, ownerId)
    case Sending => s.log == [Delete(true), Handle(true)] && Matches(m, ownerId)
    case _ => true
  }

  /** The effects of a job that has ended. */
  predicate EndedWith(m: Message, ownerId: string, j: JobState, log: seq<Effect>) {
    match j
    case Finished => log == [Delete(true), Handle(true), SendResult] && m.attribute == OwnedBy(ownerId)
    case Error =>
      || log == [Delete(false)]
      || (log == [Delete(true)] && m.attribute != OwnedBy(ownerId))
      || (log == [Delete(true), Handle(false)] && m.attribute == OwnedBy(ownerId))
    case Initial => log == []
    case Executing => true
  }

  ghost predicate Inv(m: Message, ownerId: string, s: State) {
    && Sum(s.calls, HoldBit) <= 1
    && Sum(s.calls, InsideBit) == (if s.job == Executing then 1 else 0)
    && Sum(s.calls, Success) == (if s.job == Finished then 1 else 0)
    && (forall c | 0 <= c < |s.calls| :: PcOk(m, ownerId, s, s.calls[c]))
    && EndedWith(m, ownerId, s.job, s.log)
  }

  lemma CallsAfter(m: Message, ownerId: string, s: State, a: Action, f: Pc -> int)
    requires Enabled(s, a)
    ensures Sum(Apply(m, ownerId, s, a).calls, f) - Sum(s.calls, f) ==
            if a.Call? then f(Waiting) else f(Apply(m, ownerId, s, a).calls[a.c]) - f(s.calls[a.c])
  {
    if a.Call? {
      SumAppend(s.calls, Waiting, f);
    } else {
      var p := Apply(m, ownerId, s, a).calls[a.c];
      assert Apply(m, ownerId, s, a).calls == s.calls[a.c := p];
      SumUpdate(s.calls, a.c, p, f);
    }
  }

  /** At most one call is inside, so no other call has a log to keep. */
  lemma OnlyOneInside(m: Message, ownerId: string, s: State, c: nat, d: nat)
    requires Inv(m, ownerId, s) && c < |s.calls| && d < |s.calls| && c != d && Holds(s.calls[c])
    ensures !Holds(s.calls[d])
  {
    if Holds(s.calls[d]) {
      if c < d {
        SumTwo(s.calls, c, d, HoldBit);
      } else {
        SumTwo(s.calls, d, c, HoldBit);
      }
    }
  }

  lemma HoldStep(m: Message, ownerId: string, s: State, a: Action)
    requires Sum(s.calls, HoldBit) <= 1 && Enabled(s, a)
    ensures Sum(Apply(m, ownerId, s, a).calls, HoldBit) <= 1
  {
    CallsAfter(m, ownerId, s, a, HoldBit);
    if a.Acquire? {
      SumZero(s.calls, HoldBit);
    }
  }

  /** A call that is inside is the one that executes the job. */
  lemma InsideExecutes(m: Message, ownerId: string, s: State, c: nat)
    requires Inv(m, ownerId, s) && c < |s.calls| && InsideBit(s.calls[c]) == 1
    ensures s.job == Executing
  {
    SumBounds(s.calls, InsideBit);
  }

  lemma InsideCount(m: Message, ownerId: string, s: State, a: Action)
    requires Inv(m, ownerId, s) && Enabled(s, a)
    ensures var s' := Apply(m, ownerId, s, a);
      Sum(s'.calls, InsideBit) == if s'.job == Executing then 1 else 0
  {
    CallsAfter(m, ownerId, s, a, InsideBit);
    if !a.Call? && InsideBit(s.calls[a.c]) == 1 {
      InsideExecutes(m, ownerId, s, a.c);
    }
  }

  lemma SuccessCount(m: Message, ownerId: string, s: State, a: Action)
    requires Inv(m, ownerId, s) && Enabled(s, a)
    ensures var s' := Apply(m, ownerId, s, a);
      Sum(s'.calls, Success) == if s'.job == Finished then 1 else 0
  {
    CallsAfter(m, ownerId, s, a, Success);
    if !a.Call? && InsideBit(s.calls[a.c]) == 1 {
      InsideExecutes(m, ownerId, s, a.c);
    }
  }

  /** The step of the call that is inside, all others being outside. */
  lemma InsideStep(m: Message, ownerId: string, s: State, a: Action)
    requires Enabled(s, a) && !a.Call? && !a.Acquire?
    requires PcOk(m, ownerId, s, s.calls[a.c]) && EndedWith(m, ownerId, s.job, s.log)
    requires s.calls[a.c] in {Deleting, Checking, Handling, Sending} ==> s.job == Executing
    ensures var s' := Apply(m, ownerId, s, a);
      && PcOk(m, ownerId, s', s'.calls[a.c]) && EndedWith(m, ownerId, s'.job, s'.log)
  {
  }

  lemma OutsideStep(m: Message, ownerId: string, s: State, a: Action, d: nat)
    requires Inv(m, ownerId, s) && Enabled(s, a) && d < |s.calls| && (!a.Call? ==> d != a.c)
    ensures var s' := Apply(m, ownerId, s, a);
      s'.calls[d] == s.calls[d] && PcOk(m, ownerId, s', s'.calls[d])
  {
    assert PcOk(m, ownerId, s, s.calls[d]);
    if !a.Call? && !a.Acquire? {
      OnlyOneInside(m, ownerId, s, a.c, d);
    }
  }

  lemma InvStep(m: Message, ownerId: string, s: State, a: Action)
    requires Inv(m, ownerId, s) && Enabled(s, a)
    ensures Inv(m, ownerId, Apply(m, ownerId, s, a))
  {
    HoldStep(m, ownerId, s, a);
    InsideCount(m, ownerId, s, a);
    SuccessCount(m, ownerId, s, a);
    var s' := Apply(m, ownerId, s, a);
    if !a.Call? && !a.Acquire? {
      SumBounds(s.calls, InsideBit);
      assert InsideBit(s.calls[a.c]) <= Sum(s.calls, InsideBit);
      assert PcOk(m, ownerId, s, s.calls[a.c]);
      InsideStep(m, ownerId, s, a);
    }
    forall d | 0 <= d < |s'.calls|
      ensures PcOk(m, ownerId, s', s'.calls[d])
    {
      if d < |s.calls| && (!a.Call? ==> d != a.c) {
        OutsideStep(m, ownerId, s, a, d);
      }
    }
  }

  lemma {:induction false} InvRun(m: Message, ownerId: string, s: State, acts: seq<Action>)
    requires Inv(m, ownerId, s) && IsRun(m, ownerId, s, acts)
    ensures Inv(m, ownerId, Exec(m, ownerId, s, acts))
    decreases |acts|
  {
    if acts != [] {
      InvStep(m, ownerId, s, acts[0]);
      InvRun(m, ownerId, Apply(m, ownerId, s, acts[0]), acts[1..]);
    }
  }

  // ---------------------------------------------------------------- theorem

  function Deletes(log: seq<Effect>): nat {
    multiset(log)[Delete(true)] + multiset(log)[Delete(false)]
  }

  function Handles(log: seq<Effect>): nat {
    multiset(log)[Handle(true)] + multiset(log)[Handle(false)]
  }

  function Sends(log: seq<Effect>): nat {
    multiset(log)[SendResult]
  }

  /** Every answer in the log is one that the environment has given. */
  lemma {:induction false} AnswersAreGiven(m: Message, ownerId: string, s: State, acts: seq<Action>)
    requires IsRun(m, ownerId, s, acts)
    ensures forall ok | Delete(ok) in Exec(m, ownerId, s, acts).log ::
      Delete(ok) in s.log || exists c :: DeleteMessage(c, ok) in acts
    ensures forall ok | Handle(ok) in Exec(m, ownerId, s, acts).log ::
      Handle(ok) in s.log || exists c :: HandleMessage(c, ok) in acts
    decreases |acts|
  {
    if acts != [] {
      var a, rest := acts[0], acts[1..];
      var s' := Apply(m, ownerId, s, a);
      AnswersAreGiven(m, ownerId, s', rest);
      assert a in acts && forall b | b in rest :: b in acts;
      forall ok | Delete(ok) in Exec(m, ownerId, s, acts).log
        ensures Delete(ok) in s.log || exists c :: DeleteMessage(c, ok) in acts
      {
        if Delete(ok) in s'.log && Delete(ok) !in s.log {
          assert DeleteMessage(a.c, ok) in acts;
        }
      }
      forall ok | Handle(ok) in Exec(m, ownerId, s, acts).log
        ensures Handle(ok) in s.log || exists c :: HandleMessage(c, ok) in acts
      {
        if Handle(ok) in s'.log && Handle(ok) !in s.log {
          assert HandleMessage(a.c, ok) in acts;
        }
      }
    }
  }

  /** After any run of any number of concurrent calls: one deletion at most, one
      handling at most and only of a deleted message of the right owner, one
      call at most returns nil, and a result is sent exactly if the job has
      finished. */
  lemma OneShot(m: Message, ownerId: string, acts: seq<Action>)
    requires IsRun(m, ownerId, INIT, acts)
    ensures var s := Exec(m, ownerId, INIT, acts);
      && Deletes(s.log) <= 1
      && Handles(s.log) <= 1
      && (Handles(s.log) == 1 ==> s.log[0] == Delete(true) && m.attribute == OwnedBy(ownerId))
      && EndedWith(m, ownerId, s.job, s.log)
      && Sum(s.calls, Success) <= 1
      && (Sum(s.calls, Success) == 1 <==> s.job == Finished)
      && Sends(s.log) == (if s.job == Finished then 1 else 0)
      && (forall ok | Delete(ok) in s.log :: exists c :: DeleteMessage(c, ok) in acts)
      && (forall ok | Handle(ok) in s.log :: exists c :: HandleMessage(c, ok) in acts)
  {
    InvRun(m, ownerId, INIT, acts);
    AnswersAreGiven(m, ownerId, INIT, acts);
    var s := Exec(m, ownerId, INIT, acts);
    if s.job == Executing {
      var c := SumPositive(s.calls, InsideBit);
      assert PcOk(m, ownerId, s, s.calls[c]);
    }
  }

  // ------------------------------------------------------ the job object

  /** What one call does to a job nobody else executes at the time. */
  datatype Result = Result(job: JobState, effects: seq<Effect>, failed: bool)

  function ExecuteAlone(matches: bool, job: JobState, deleteOk: bool, handleOk: bool): Result {
    if job != Initial then Result(job, [], true)
    else if !deleteOk then Result(Error, [Delete(false)], true)
    else if !matches then Result(Error, [Delete(true)], true)
    else if !handleOk then Result(Error, [Delete(true), Handle(false)], true)
    else Result(Finished, [Delete(true), Handle(true), SendResult], false)
  }

  class Job {
    const message: Message
    const ownerId: string
    var state: JobState
    var log: seq<Effect>

    constructor (message: Message, ownerId: string)
      ensures this.message == message && this.ownerId == ownerId
      ensures state == Initial && log == []
    {
      this.message := message;
      this.ownerId := ownerId;
      state, log := Initial, [];
    }

    /** Execute, holding the mutex from beginning to end.  deleteOk and handleOk
        are the answers of the queue and of the message handler. */
    method Execute(deleteOk: bool, handleOk: bool) returns (failed: bool)
      modifies this
      ensures old(state) != Initial ==> failed && state == old(state) && log == old(log)
      ensures old(state) == Initial ==>
        var handled := deleteOk && message.attribute == OwnedBy(ownerId);
        && (!failed <==> handled && handleOk)
        && state == (if failed then Error else Finished)
        && log == old(log) + [Delete(deleteOk)]
                  + (if handled then [Handle(handleOk)] else []) + (if handled && handleOk then [SendResult] else [])
      ensures var r := ExecuteAlone(Matches(message, ownerId), old(state), deleteOk, handleOk);
        state == r.job && log == old(log) + r.effects && failed == r.failed
      ensures old(state) == Initial && old(log) == [] ==> EndedWith(message, ownerId, state, log)
    {
      if state != Initial {
        return true;
      }
      state := Executing;
      log := log + [Delete(deleteOk)];
      if !deleteOk {
        state := Error;
        return true;
      }
      if message.attribute == NoAttributes || message.attribute.id != ownerId {
        state := Error;
        return true;
      }
      log := log + [Handle(handleOk)];
      if !handleOk {
        state := Error;
        return true;
      }
      log := log + [SendResult];
      state := Finished;
      return false;
    }
  }

  lemma Before(m: Message, ownerId: string, s: State, a: Action, rest: seq<Action>) returns (acts: seq<Action>)
    requires Enabled(s, a) && IsRun(m, ownerId, Apply(m, ownerId, s, a), rest)
    ensures IsRun(m, ownerId, s, acts)
    ensures Exec(m, ownerId, s, acts) == Exec(m, ownerId, Apply(m, ownerId, s, a), rest)
  {
    acts := [a] + rest;
    assert acts[1..] == rest;
  }

  lemma FromHandle(m: Message, ownerId: string, s: State, c: nat, handleOk: bool) returns (acts: seq<Action>)
    requires c < |s.calls| && s.calls[c] == Handling
    ensures IsRun(m, ownerId, s, acts)
    ensures Exec(m, ownerId, s, acts) ==
      if handleOk then State(Finished, s.calls[c := Returned(false)], s.log + [Handle(true), SendResult])
      else State(Error, s.calls[c := Returned(true)], s.log + [Handle(false)])
  {
    var s1 := Apply(m, ownerId, s, HandleMessage(c, handleOk));
    if !handleOk {
      acts := Before(m, ownerId, s1, Release(c), []);
    } else {
      var s2 := Apply(m, ownerId, s1, StartSending(c));
      acts := Before(m, ownerId, s2, Release(c), []);
      acts := Before(m, ownerId, s1, StartSending(c), acts);
    }
    acts := Before(m, ownerId, s, HandleMessage(c, handleOk), acts);
  }

  lemma FromDelete(m: Message, ownerId: string, s: State, c: nat, deleteOk: bool, handleOk: bool)
    returns (acts: seq<Action>)
    requires c < |s.calls| && s.calls[c] == Deleting
    ensures IsRun(m, ownerId, s, acts)
    ensures var r := ExecuteAlone(Matches(m, ownerId), Initial, deleteOk, handleOk);
      Exec(m, ownerId, s, acts) == State(r.job, s.calls[c := Returned(r.failed)], s.log + r.effects)
  {
    var s1 := Apply(m, ownerId, s, DeleteMessage(c, deleteOk));
    if !deleteOk {
      acts := Before(m, ownerId, s1, Release(c), []);
    } else {
      var s2 := Apply(m, ownerId, s1, CheckOwner(c));
      if !Matches(m, ownerId) {
        acts := Before(m, ownerId, s2, Release(c), []);
      } else {
        acts := FromHandle(m, ownerId, s2, c, handleOk);
      }
      acts := Before(m, ownerId, s1, CheckOwner(c), acts);
    }
    acts := Before(m, ownerId, s, DeleteMessage(c, deleteOk), acts);
  }

  /** The calls of a run that nobody else enters: what ExecuteAlone says. */
  lemma AloneIsARun(m: Message, ownerId: string, s: State, deleteOk: bool, handleOk: bool) returns (acts: seq<Action>)
    requires MutexFree(s)
    ensures IsRun(m, ownerId, s, acts)
    ensures var r := ExecuteAlone(Matches(m, ownerId), s.job, deleteOk, handleOk);
      Exec(m, ownerId, s, acts) == State(r.job, s.calls + [Returned(r.failed)], s.log + r.effects)
  {
    var c := |s.calls|;
    var s1 := Apply(m, ownerId, s, Call);
    var s2 := Apply(m, ownerId, s1, Acquire(c));
    var s3 := Apply(m, ownerId, s2, LookAtState(c));
    if s.job != Initial {
      acts := Before(m, ownerId, s3, Release(c), []);
    } else {
      acts := FromDelete(m, ownerId, s3, c, deleteOk, handleOk);
    }
    acts := Before(m, ownerId, s2, LookAtState(c), acts);
    acts := Before(m, ownerId, s1, Acquire(c), acts);
    acts := Before(m, ownerId, s, Call, acts);
  }
}
