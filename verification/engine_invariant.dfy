/** The inductive invariant of the engine. */
module EngineInvariant {
  import Pool = PoolModel
  import PoolInv = PoolInvariant
  import Jobs
  import opened Sums
  import opened EngineModel

  predicate LifeOk(s: State) {
    && (s.proc in {ProcCreated, StartingPool} ==> s.pollers == [])
    && (s.proc == ProcCreated ==> s.pool.control == Pool.Created)
    && (s.proc == StartingPool ==>
          || s.pool.control in {Pool.Created, Pool.StartCounters, Pool.StartWg, Pool.Running}
          || s.pool.control.StartSpawn?)
    && (s.proc in {FirstRefresh, ProcRunning, StopCalled} ==> s.pool.control == Pool.Running)
    && (s.proc == StoppingPool ==>
          s.pool.control in {Pool.Running, Pool.StopLocked, Pool.StopFlagged, Pool.StopWaiting, Pool.Stopped})
    && (s.proc in {RemovingRepos, ProcStopped} ==> s.pool.control == Pool.Stopped)
    && (s.runner == NotStarted <==> s.proc in {ProcCreated, StartingPool, FirstRefresh})
    && (s.quit <==> s.proc in {StopCalled, StoppingPool, RemovingRepos, ProcStopped})
    && (s.runner in {StoppingPollers, RunnerDone} ==> s.quit)
    && (s.proc in {StoppingPool, RemovingRepos, ProcStopped} ==>
          s.runner == RunnerDone && s.puller in {NoRepositories, PullerDone})
  }

  predicate PollerOk(s: State, x: Poller) {
    && (x.pc == Exited ==> x.stop != NotStopped)
    && (x.stop == StopReturned ==> x.pc == Exited)
    && (!x.inMap ==> x.stop != NotStopped)
    && (x.inMap && x.stop != NotStopped ==> s.runner in {StoppingPollers, RunnerDone})
    && (s.runner == RunnerDone ==> x.stop == StopReturned)
  }

  predicate PollersOk(s: State) {
    forall p | 0 <= p < |s.pollers| :: PollerOk(s, s.pollers[p])
  }

  predicate Alive(x: Poller) {
    x.pc != Exited
  }

  predicate OnePerQueue(s: State) {
    forall p, q | 0 <= p < q < |s.pollers| && s.pollers[p].url == s.pollers[q].url ::
      !(Alive(s.pollers[p]) && Alive(s.pollers[q])) && !(s.pollers[p].inMap && s.pollers[q].inMap)
  }

  predicate HasBatch(pc: PollerPc) {
    pc.Offering? || pc.Submitting? || pc.ReleasingOne? || pc.ReleasingRest?
  }

  predicate InBatch(pc: PollerPc, m: Msg) {
    HasBatch(pc) && pc.next <= m < pc.next + |pc.batch|
  }

  predicate BatchOk(s: State, pc: PollerPc) {
    HasBatch(pc) ==>
      && pc.next + |pc.batch| <= |s.messages|
      && s.messages[pc.next..pc.next + |pc.batch|] == pc.batch
      && (pc.Submitting? || pc.ReleasingOne? ==> pc.batch != [])
  }

  /** A message is in the hands of a poller exactly if it is in the part of its
      batch that the poller has not dealt with. */
  ghost predicate BatchesOk(s: State) {
    && (forall m: Msg :: m in s.status <==> m < |s.messages|)
    && (forall p | 0 <= p < |s.pollers| :: BatchOk(s, s.pollers[p].pc))
    && (forall m | m in s.status && s.status[m].Held? ::
          s.status[m].poller < |s.pollers| && InBatch(s.pollers[s.status[m].poller].pc, m))
    && (forall p, m: Msg | 0 <= p < |s.pollers| && InBatch(s.pollers[p].pc, m) ::
          m in s.status && s.status[m] == Held(p))
  }

  predicate Refused(s: State, t: Pool.Ticket) {
    t < |s.pool.submits| && s.pool.submits[t].Returned? && s.pool.submits[t].answer != Pool.Accepted
  }

  /** Where the message of a job is, by the answer to its submission. */
  predicate JobOk(s: State, t: nat)
    requires t < |s.jobs| && t < |s.pool.submits|
  {
    var j := s.jobs[t];
    && j.msg < |s.messages| && j.message == s.messages[j.msg]
    && j.poller < |s.pollers|
    && j.msg in s.status
    && match s.status[j.msg]
       case Submitted(u) => u == t && s.pool.submits[t] == Pool.Returned(Pool.Accepted)
       case Released => Refused(s, t)
       case Held(p) =>
         && p == j.poller
         && var pc := s.pollers[p].pc;
            || (pc.Submitting? && pc.next == j.msg && pc.ticket == t)
            || ((pc.ReleasingOne? || pc.ReleasingRest?) && pc.next == j.msg && Refused(s, t))
  }

  ghost predicate JobsOk(s: State) {
    && |s.jobs| == |s.pool.submits|
    && (forall t | 0 <= t < |s.jobs| :: JobOk(s, t))
    && (forall p | 0 <= p < |s.pollers| && s.pollers[p].pc.Submitting? ::
          s.pollers[p].pc.ticket < |s.jobs| && s.jobs[s.pollers[p].pc.ticket].msg == s.pollers[p].pc.next)
    && (forall m | m in s.status && s.status[m].Submitted? ::
          s.status[m].ticket < |s.jobs| && s.jobs[s.status[m].ticket].msg == m)
  }

  predicate NotFailed(p: Pool.SubmitPc) {
    !((p.Returning? || p.Returned?) && p.answer == Pool.Failed)
  }

  predicate NoneFailed(s: State) {
    && (forall t | 0 <= t < |s.pool.submits| :: NotFailed(s.pool.submits[t]))
    && (forall p | 0 <= p < |s.pollers| :: !s.pollers[p].pc.ReleasingRest?)
  }

  ghost predicate EffectOk(ownerId: string, s: State, t: nat)
    requires t < |s.jobs|
  {
    var j := s.jobs[t];
    if t in s.pool.executed
    then j.state in {Jobs.Finished, Jobs.Error} && Jobs.EndedWith(j.message, ownerId, j.state, j.effects)
    else j.state == Jobs.Initial && j.effects == []
  }

  ghost predicate EffectsOk(ownerId: string, s: State) {
    forall t | 0 <= t < |s.jobs| :: EffectOk(ownerId, s, t)
  }

  ghost predicate Inv(c: Pool.Conf, ownerId: string, s: State) {
    && PoolInv.Inv(c, s.pool)
    && LifeOk(s)
    && PollersOk(s)
    && OnePerQueue(s)
    && BatchesOk(s)
    && JobsOk(s)
    && NoneFailed(s)
    && EffectsOk(ownerId, s)
  }

  // ------------------------------------------------- what one action keeps

  lemma OnlyCallerControls(c: Pool.Conf, s: Pool.State, x: Pool.Action)
    requires Pool.Enabled(c, s, x) && !x.ByCaller?
    ensures Pool.Apply(c, s, x).control == s.control
  {
    match x
    case ByStarter(y) =>
    case SubmitCall =>
    case BySubmit(t, e) =>
    case ByWorker(w, k) =>
  }

  lemma CallerLife(c: Pool.Conf, s: State, y: Pool.ControlStep)
    requires LifeOk(s) && Enabled(c, s, OfPool(Pool.ByCaller(y)))
    ensures LifeOk(s.(pool := Pool.ControlApply(c, s.pool, y)))
  {
  }

  lemma PoolLife(c: Pool.Conf, s: State, x: Pool.Action)
    requires LifeOk(s) && Enabled(c, s, OfPool(x))
    ensures LifeOk(s.(pool := Pool.Apply(c, s.pool, x)))
  {
    if x.ByCaller? {
      CallerLife(c, s, x.c);
    } else {
      OnlyCallerControls(c, s.pool, x);
    }
  }

  lemma ProcLife(s: State, x: ProcStep)
    requires LifeOk(s) && ProcEnabled(s, x)
    ensures LifeOk(ProcApply(s, x))
  {
  }

  lemma SubmitCallLife(c: Pool.Conf, s: State, p: nat, e: PollerStep)
    requires LifeOk(s) && p < |s.pollers| && PollerEnabled(s, p, e)
    ensures LifeOk(PollerApply(c, s, p, e))
  {
  }

  lemma RunnerLife(s: State, r: RunnerStep)
    requires LifeOk(s) && RunnerEnabled(s, r)
    ensures LifeOk(RunnerApply(s, r))
  {
  }

  lemma LifeStep(c: Pool.Conf, ownerId: string, s: State, a: Action)
    requires LifeOk(s) && Enabled(c, s, a)
    ensures LifeOk(Apply(c, ownerId, s, a))
  {
    match a
    case Proc(x) => ProcLife(s, x);
    case Runner(r) => RunnerLife(s, r);
    case Puller(y) =>
    case OfPoller(p, e) => SubmitCallLife(c, s, p, e);
    case StopOf(p, z) =>
    case OfPool(x) => PoolLife(c, s, x);
    case FinishJob(w, _, _) =>
  }

  /** Pollers exist and move only while the pool runs. */
  lemma AliveMeansRunning(c: Pool.Conf, s: State, p: nat)
    requires PoolInv.LifecycleOk(s.pool) && LifeOk(s) && PollersOk(s)
    requires p < |s.pollers| && Alive(s.pollers[p])
    ensures s.proc in {FirstRefresh, ProcRunning, StopCalled}
    ensures s.pool.control == Pool.Running && s.pool.isRunning
  {
    assert PollerOk(s, s.pollers[p]);
  }

  /** Poller p has become x; nobody else has moved. */
  lemma OnePollerMoved(s: State, s': State, p: nat, x: Poller)
    requires PollersOk(s) && p < |s.pollers| && s'.pollers == s.pollers[p := x] && PollerOk(s', x)
    requires s'.runner == s.runner
    ensures PollersOk(s')
  {
    forall q | 0 <= q < |s'.pollers|
      ensures PollerOk(s', s'.pollers[q])
    {
      assert PollerOk(s, s.pollers[q]);
    }
  }

  lemma ProcPollers(s: State, x: ProcStep)
    requires LifeOk(s) && PollersOk(s) && ProcEnabled(s, x)
    ensures PollersOk(ProcApply(s, x))
  {
    forall q | 0 <= q < |s.pollers|
      ensures PollerOk(ProcApply(s, x), s.pollers[q])
    {
      assert PollerOk(s, s.pollers[q]);
    }
  }

  lemma RunnerPollers(s: State, r: RunnerStep)
    requires LifeOk(s) && PollersOk(s) && RunnerEnabled(s, r)
    ensures PollersOk(RunnerApply(s, r))
  {
    var s' := RunnerApply(s, r);
    match r
    case RemovePoller(p) => OnePollerMoved(s, s', p, s.pollers[p].(inMap := false, stop := QuitClosed));
    case StopPoller(p) => OnePollerMoved(s, s', p, s.pollers[p].(stop := QuitClosed));
    case RefreshClient(p) => OnePollerMoved(s, s', p, s'.pollers[p]);
    case AddPoller =>
      forall q | 0 <= q < |s'.pollers|
        ensures PollerOk(s', s'.pollers[q])
      {
        assert q < |s.pollers| ==> PollerOk(s, s.pollers[q]);
      }
    case _ =>
      forall q | 0 <= q < |s.pollers|
        ensures PollerOk(s', s.pollers[q])
      {
        assert PollerOk(s, s.pollers[q]);
      }
  }

  lemma PollersStep(c: Pool.Conf, ownerId: string, s: State, a: Action)
    requires LifeOk(s) && PollersOk(s) && Enabled(c, s, a)
    ensures PollersOk(Apply(c, ownerId, s, a))
  {
    match a
    case Proc(x) => ProcPollers(s, x);
    case Runner(r) => RunnerPollers(s, r);
    case Puller(y) =>
    case OfPoller(p, e) =>
      assert PollerOk(s, s.pollers[p]);
      OnePollerMoved(s, PollerApply(c, s, p, e), p, s.pollers[p].(pc := NextPc(c, s, p, e)));
    case StopOf(p, z) =>
      assert PollerOk(s, s.pollers[p]);
      OnePollerMoved(s, StopApply(s, p, z), p, s.pollers[p].(stop := if z == Join then StopReturned else WakeUpClosed));
    case OfPool(x) =>
    case FinishJob(w, _, _) =>
  }

  lemma AddKeepsOne(s: State)
    requires PollersOk(s) && OnePerQueue(s) && RunnerEnabled(s, AddPoller)
    ensures OnePerQueue(RunnerApply(s, AddPoller))
  {
    forall p | 0 <= p < |s.pollers| && s.pollers[p].url == Entry(s).url
      ensures !Alive(s.pollers[p]) && !s.pollers[p].inMap
    {
      assert PollerOk(s, s.pollers[p]);
    }
  }

  /** Pollers keep their queue; none comes back to life or into the map. */
  predicate NoneRevived(s: State, s': State) {
    && |s'.pollers| == |s.pollers|
    && forall p | 0 <= p < |s.pollers| ::
         && s'.pollers[p].url == s.pollers[p].url
         && (Alive(s'.pollers[p]) ==> Alive(s.pollers[p]))
         && (s'.pollers[p].inMap ==> s.pollers[p].inMap)
  }

  lemma RunnerRevivesNone(s: State, r: RunnerStep)
    requires RunnerEnabled(s, r) && !r.AddPoller?
    ensures NoneRevived(s, RunnerApply(s, r))
  {
  }

  lemma NoneRevivedStep(c: Pool.Conf, ownerId: string, s: State, a: Action)
    requires Enabled(c, s, a) && !(a.Runner? && a.r.AddPoller?)
    ensures NoneRevived(s, Apply(c, ownerId, s, a))
  {
    match a
    case Proc(x) =>
    case Runner(r) => RunnerRevivesNone(s, r);
    case Puller(y) =>
    case OfPoller(p, e) =>
      assert PollerApply(c, s, p, e).pollers == s.pollers[p := s.pollers[p].(pc := NextPc(c, s, p, e))];
    case StopOf(p, z) =>
    case OfPool(x) =>
    case FinishJob(w, _, _) =>
  }

  lemma OnePerQueueStep(c: Pool.Conf, ownerId: string, s: State, a: Action)
    requires PollersOk(s) && OnePerQueue(s) && Enabled(c, s, a)
    ensures OnePerQueue(Apply(c, ownerId, s, a))
  {
    if a.Runner? && a.r.AddPoller? {
      AddKeepsOne(s);
    } else {
      NoneRevivedStep(c, ownerId, s, a);
    }
  }

  // --------------------------------------------------------------- batches

  /** The parts of the state that batches are about. */
  predicate SameBatches(s: State, s': State) {
    && s'.messages == s.messages && s'.status == s.status
    && |s.pollers| <= |s'.pollers|
    && (forall p | 0 <= p < |s.pollers| :: s'.pollers[p].pc == s.pollers[p].pc)
    && (forall p | |s.pollers| <= p < |s'.pollers| :: s'.pollers[p].pc == Top)
  }

  lemma SameBatchesKeep(s: State, s': State)
    requires BatchesOk(s) && SameBatches(s, s')
    ensures BatchesOk(s')
  {
  }

  lemma RunnerBatches(s: State, r: RunnerStep)
    requires RunnerEnabled(s, r)
    ensures SameBatches(s, RunnerApply(s, r))
  {
  }

  lemma QuietBatches(c: Pool.Conf, ownerId: string, s: State, a: Action)
    requires Enabled(c, s, a) && !a.OfPoller?
    ensures SameBatches(s, Apply(c, ownerId, s, a))
  {
    match a
    case Proc(x) =>
    case Runner(r) => RunnerBatches(s, r);
    case Puller(y) =>
    case StopOf(p, z) =>
    case OfPool(x) =>
    case FinishJob(w, _, _) =>
  }

  predicate Touches(e: PollerStep) {
    e.Receive? || e.TakeAnswer? || e.ReleaseNext?
  }

  /** Poller p has moved on, with the same messages in its hands. */
  lemma SameHands(s: State, s': State, p: nat)
    requires BatchesOk(s) && p < |s.pollers| == |s'.pollers|
    requires s'.messages == s.messages && s'.status == s.status
    requires forall q | 0 <= q < |s.pollers| && q != p :: s'.pollers[q].pc == s.pollers[q].pc
    requires BatchOk(s', s'.pollers[p].pc)
    requires forall m: Msg :: InBatch(s'.pollers[p].pc, m) <==> InBatch(s.pollers[p].pc, m)
    ensures BatchesOk(s')
  {
    forall q | 0 <= q < |s'.pollers|
      ensures BatchOk(s', s'.pollers[q].pc)
    {
      assert BatchOk(s, s.pollers[q].pc);
    }
    assert forall q, m: Msg | 0 <= q < |s.pollers| :: InBatch(s'.pollers[q].pc, m) <==> InBatch(s.pollers[q].pc, m);
  }

  /** The same batch in another phase. */
  lemma SameBatchOtherPhase(s: State, s': State, p: nat)
    requires BatchesOk(s) && p < |s.pollers| == |s'.pollers|
    requires s'.messages == s.messages && s'.status == s.status
    requires forall q | 0 <= q < |s.pollers| && q != p :: s'.pollers[q].pc == s.pollers[q].pc
    requires HasBatch(s.pollers[p].pc) && s.pollers[p].pc.batch != [] && HasBatch(s'.pollers[p].pc)
    requires s'.pollers[p].pc.next == s.pollers[p].pc.next && s'.pollers[p].pc.batch == s.pollers[p].pc.batch
    ensures BatchesOk(s')
  {
    assert BatchOk(s, s.pollers[p].pc);
    SameHands(s, s', p);
  }

  /** A step of a poller that deals with no message. */
  lemma UntouchedBatch(c: Pool.Conf, s: State, p: nat, e: PollerStep)
    requires p < |s.pollers| && PollerEnabled(s, p, e) && BatchesOk(s) && !Touches(e)
    ensures BatchesOk(PollerApply(c, s, p, e))
  {
    var s' := PollerApply(c, s, p, e);
    assert s'.pollers == s.pollers[p := s.pollers[p].(pc := NextPc(c, s, p, e))];
    if e.SubmitNext? {
      SameBatchOtherPhase(s, s', p);
    } else {
      assert BatchOk(s', NextPc(c, s, p, e));
      SameHands(s, s', p);
    }
  }

  /** s' is s with poller p having received messages. */
  ghost predicate HasReceived(s: State, s': State, p: nat, received: seq<Jobs.Message>) {
    && p < |s.pollers| == |s'.pollers|
    && (forall q | 0 <= q < |s.pollers| && q != p :: s'.pollers[q].pc == s.pollers[q].pc)
    && s.pollers[p].pc == Receiving
    && s'.pollers[p].pc == (if received == [] then Resting else Offering(|s.messages|, received))
    && s'.messages == s.messages + received
    && (forall m: Msg :: m in s'.status <==> m < |s'.messages|)
    && (forall m: Msg | m < |s'.messages| ::
          s'.status[m] == if m < |s.messages| && m in s.status then s.status[m] else Held(p))
  }

  /** A batch stays where it is in a longer list of messages. */
  lemma LongerMessages(s: State, s': State, pc: PollerPc)
    requires BatchOk(s, pc) && s.messages <= s'.messages
    ensures BatchOk(s', pc)
  {
    if HasBatch(pc) {
      var n := pc.next + |pc.batch|;
      assert s'.messages[pc.next..n] == s.messages[pc.next..n];
    }
  }

  lemma HasReceivedBatch(s: State, s': State, p: nat, received: seq<Jobs.Message>)
    requires BatchesOk(s) && HasReceived(s, s', p, received)
    ensures BatchesOk(s')
  {
    forall q | 0 <= q < |s'.pollers|
      ensures BatchOk(s', s'.pollers[q].pc)
    {
      if q == p {
        assert s'.messages[|s.messages|..|s.messages| + |received|] == received;
      } else {
        LongerMessages(s, s', s.pollers[q].pc);
      }
    }
    forall q, m: Msg | 0 <= q < |s'.pollers| && InBatch(s'.pollers[q].pc, m)
      ensures m in s'.status && s'.status[m] == Held(q)
    {
      assert q != p ==> InBatch(s.pollers[q].pc, m);
    }
    forall m | m in s'.status && s'.status[m].Held?
      ensures s'.status[m].poller < |s'.pollers| && InBatch(s'.pollers[s'.status[m].poller].pc, m)
    {
      assert m < |s.messages| ==> InBatch(s.pollers[s.status[m].poller].pc, m);
    }
  }

  lemma ReceivedBatch(c: Pool.Conf, s: State, p: nat, received: seq<Jobs.Message>)
    requires p < |s.pollers| && PollerEnabled(s, p, Receive(received)) && BatchesOk(s)
    ensures BatchesOk(PollerApply(c, s, p, Receive(received)))
  {
    HasReceivedBatch(s, PollerApply(c, s, p, Receive(received)), p, received);
  }

  /** s' is s after poller p has dealt with the first message of its batch. */
  ghost predicate DealtWith(s: State, s': State, p: nat, x: Status) {
    && p < |s.pollers| == |s'.pollers|
    && (forall q | 0 <= q < |s.pollers| && q != p :: s'.pollers[q].pc == s.pollers[q].pc)
    && HasBatch(s.pollers[p].pc) && s.pollers[p].pc.batch != []
    && HasBatch(s'.pollers[p].pc) && !s'.pollers[p].pc.Submitting? && !s'.pollers[p].pc.ReleasingOne?
    && s'.pollers[p].pc.next == s.pollers[p].pc.next + 1
    && s'.pollers[p].pc.batch == s.pollers[p].pc.batch[1..]
    && s'.messages == s.messages
    && s'.status == s.status[s.pollers[p].pc.next := x]
    && !x.Held?
  }

  lemma DealtWithBatch(s: State, s': State, p: nat, x: Status)
    requires BatchesOk(s) && DealtWith(s, s', p, x)
    ensures BatchesOk(s')
  {
    var next := s.pollers[p].pc.next;
    assert BatchOk(s, s.pollers[p].pc);
    assert InBatch(s.pollers[p].pc, next);
    forall q | 0 <= q < |s'.pollers|
      ensures BatchOk(s', s'.pollers[q].pc)
    {
      assert BatchOk(s, s.pollers[q].pc);
    }
    forall q, m: Msg | 0 <= q < |s'.pollers| && InBatch(s'.pollers[q].pc, m)
      ensures m in s'.status && s'.status[m] == Held(q)
    {
      assert InBatch(s.pollers[q].pc, m);
      assert s.status[m] == Held(q) && s.status[next] == Held(p);
      assert m != next;
    }
    forall m | m in s'.status && s'.status[m].Held?
      ensures s'.status[m].poller < |s'.pollers| && InBatch(s'.pollers[s'.status[m].poller].pc, m)
    {
      assert m != next && InBatch(s.pollers[s.status[m].poller].pc, m);
    }
  }

  lemma AnsweredBatch(c: Pool.Conf, s: State, p: nat)
    requires p < |s.pollers| && PollerEnabled(s, p, TakeAnswer) && BatchesOk(s)
    ensures BatchesOk(PollerApply(c, s, p, TakeAnswer))
  {
    assert BatchOk(s, s.pollers[p].pc);
    var s' := PollerApply(c, s, p, TakeAnswer);
    var t := s.pollers[p].pc.ticket;
    if s.pool.submits[t].answer == Pool.Accepted {
      DealtWithBatch(s, s', p, Submitted(t));
    } else {
      SameBatchOtherPhase(s, s', p);
    }
  }

  lemma ReleasedBatch(c: Pool.Conf, s: State, p: nat, ok: bool)
    requires p < |s.pollers| && PollerEnabled(s, p, ReleaseNext(ok)) && BatchesOk(s)
    ensures BatchesOk(PollerApply(c, s, p, ReleaseNext(ok)))
  {
    assert BatchOk(s, s.pollers[p].pc);
    DealtWithBatch(s, PollerApply(c, s, p, ReleaseNext(ok)), p, Released);
  }

  lemma BatchesStep(c: Pool.Conf, ownerId: string, s: State, a: Action)
    requires BatchesOk(s) && Enabled(c, s, a)
    ensures BatchesOk(Apply(c, ownerId, s, a))
  {
    if !a.OfPoller? {
      QuietBatches(c, ownerId, s, a);
      SameBatchesKeep(s, Apply(c, ownerId, s, a));
    } else {
      match a.e
      case Receive(received) => ReceivedBatch(c, s, a.p, received);
      case TakeAnswer => AnsweredBatch(c, s, a.p);
      case ReleaseNext(ok) => ReleasedBatch(c, s, a.p, ok);
      case _ => UntouchedBatch(c, s, a.p, a.e);
    }
  }

  // ------------------------------------------------------------------ jobs

  lemma SubmitsStay(c: Pool.Conf, s: Pool.State, x: Pool.Action)
    requires Pool.Enabled(c, s, x) && !x.SubmitCall?
    ensures |Pool.Apply(c, s, x).submits| == |s.submits|
  {
    match x
    case ByCaller(y) =>
    case ByStarter(y) =>
    case BySubmit(u, e) => assert Pool.Apply(c, s, x).submits == s.submits[u := Pool.NextSubmit(c, s, s.submits[u], e)];
    case ByWorker(w, k) => assert Pool.Apply(c, s, x).submits == s.submits;
  }

  /** The pool leaves submissions that have returned alone. */
  lemma ReturnedStays(c: Pool.Conf, s: Pool.State, x: Pool.Action, t: nat)
    requires Pool.Enabled(c, s, x) && !x.SubmitCall? && t < |s.submits| && s.submits[t].Returned?
    ensures t < |Pool.Apply(c, s, x).submits| && Pool.Apply(c, s, x).submits[t] == s.submits[t]
  {
    match x
    case ByCaller(y) =>
    case ByStarter(y) =>
    case BySubmit(u, e) => assert Pool.Apply(c, s, x).submits == s.submits[u := Pool.NextSubmit(c, s, s.submits[u], e)];
    case ByWorker(w, k) =>
  }

  lemma PoolJobs(c: Pool.Conf, s: State, x: Pool.Action)
    requires JobsOk(s) && Pool.Enabled(c, s.pool, x) && !x.SubmitCall?
    ensures JobsOk(s.(pool := Pool.Apply(c, s.pool, x)))
  {
    var s' := s.(pool := Pool.Apply(c, s.pool, x));
    SubmitsStay(c, s.pool, x);
    forall t | 0 <= t < |s'.jobs|
      ensures JobOk(s', t)
    {
      assert JobOk(s, t);
      if s.pool.submits[t].Returned? {
        ReturnedStays(c, s.pool, x, t);
      }
    }
  }

  /** Actions that leave the submissions, the jobs and the batches alone. */
  lemma SameBatchesJobs(s: State, s': State)
    requires JobsOk(s) && SameBatches(s, s')
    requires s'.pool == s.pool && s'.jobs == s.jobs
    ensures JobsOk(s')
  {
    forall t | 0 <= t < |s'.jobs|
      ensures JobOk(s', t)
    {
      assert JobOk(s, t);
    }
  }

  lemma QuietJobs(c: Pool.Conf, ownerId: string, s: State, a: Action)
    requires Enabled(c, s, a) && !a.OfPoller? && !a.OfPool? && !a.FinishJob?
    ensures SameBatches(s, Apply(c, ownerId, s, a))
    ensures Apply(c, ownerId, s, a).pool == s.pool && Apply(c, ownerId, s, a).jobs == s.jobs
  {
    QuietBatches(c, ownerId, s, a);
    match a
    case Proc(x) =>
    case Runner(r) =>
    case Puller(y) =>
    case StopOf(p, z) =>
  }

  lemma FinishedJobs(c: Pool.Conf, ownerId: string, s: State, w: nat, deleteOk: bool, handleOk: bool)
    requires JobsOk(s) && Enabled(c, s, FinishJob(w, deleteOk, handleOk))
    ensures JobsOk(FinishApply(c, ownerId, s, w, deleteOk, handleOk))
  {
    var s' := FinishApply(c, ownerId, s, w, deleteOk, handleOk);
    forall t | 0 <= t < |s'.jobs|
      ensures JobOk(s', t)
    {
      assert JobOk(s, t);
    }
  }

  /** A poller that is neither submitting nor releasing has no job about a
      message of its batch. */
  lemma NoJobInHand(s: State, p: nat, t: nat)
    requires JobsOk(s) && BatchesOk(s) && t < |s.jobs| && p < |s.pollers|
    requires s.jobs[t].msg in s.status && s.status[s.jobs[t].msg] == Held(p)
    ensures s.pollers[p].pc.Submitting? || s.pollers[p].pc.ReleasingOne? || s.pollers[p].pc.ReleasingRest?
    ensures s.pollers[p].pc.batch != [] && s.pollers[p].pc.next == s.jobs[t].msg
  {
    assert JobOk(s, t);
    assert InBatch(s.pollers[p].pc, s.jobs[t].msg);
  }

  /** Steps of a poller that begin or end nothing with a job. */
  predicate AwayFromJobs(e: PollerStep) {
    e in {Select, AskAvailable, BatchDone, RestReleased, WakeUp} || e.LookAtToken?
  }

  lemma AwayJobs(c: Pool.Conf, s: State, p: nat, e: PollerStep)
    requires JobsOk(s) && BatchesOk(s) && p < |s.pollers| && PollerEnabled(s, p, e) && AwayFromJobs(e)
    ensures JobsOk(PollerApply(c, s, p, e))
  {
    var s' := PollerApply(c, s, p, e);
    forall t | 0 <= t < |s'.jobs|
      ensures JobOk(s', t)
    {
      assert JobOk(s, t);
      if s.status[s.jobs[t].msg] == Held(p) {
        NoJobInHand(s, p, t);
      }
    }
  }

  lemma ReceiveJobs(c: Pool.Conf, s: State, p: nat, received: seq<Jobs.Message>)
    requires JobsOk(s) && BatchesOk(s) && p < |s.pollers| && PollerEnabled(s, p, Receive(received))
    ensures JobsOk(PollerApply(c, s, p, Receive(received)))
  {
    var s' := PollerApply(c, s, p, Receive(received));
    forall t | 0 <= t < |s'.jobs|
      ensures JobOk(s', t)
    {
      assert JobOk(s, t);
      if s.status[s.jobs[t].msg] == Held(p) {
        NoJobInHand(s, p, t);
      }
    }
  }

  lemma SubmitJobs(c: Pool.Conf, s: State, p: nat)
    requires JobsOk(s) && BatchesOk(s) && p < |s.pollers| && PollerEnabled(s, p, SubmitNext)
    ensures JobsOk(PollerApply(c, s, p, SubmitNext))
  {
    var s' := PollerApply(c, s, p, SubmitNext);
    var next := s.pollers[p].pc.next;
    assert BatchOk(s, s.pollers[p].pc);
    assert InBatch(s.pollers[p].pc, next);
    assert s.messages[next] == s.messages[next..next + |s.pollers[p].pc.batch|][0];
    forall t | 0 <= t < |s'.jobs|
      ensures JobOk(s', t)
    {
      if t < |s.jobs| {
        assert JobOk(s, t);
        if s.status[s.jobs[t].msg] == Held(p) {
          NoJobInHand(s, p, t);
        }
      }
    }
  }

  lemma AnswerJobs(c: Pool.Conf, s: State, p: nat)
    requires JobsOk(s) && BatchesOk(s) && p < |s.pollers| && PollerEnabled(s, p, TakeAnswer)
    ensures JobsOk(PollerApply(c, s, p, TakeAnswer))
  {
    var s' := PollerApply(c, s, p, TakeAnswer);
    var pc := s.pollers[p].pc;
    assert BatchOk(s, pc);
    assert InBatch(pc, pc.next);
    assert JobOk(s, pc.ticket);
    forall t | 0 <= t < |s'.jobs|
      ensures JobOk(s', t)
    {
      assert JobOk(s, t);
      if s.status[s.jobs[t].msg] == Held(p) {
        NoJobInHand(s, p, t);
      }
    }
  }

  lemma ReleaseJobs(c: Pool.Conf, s: State, p: nat, ok: bool)
    requires JobsOk(s) && BatchesOk(s) && p < |s.pollers| && PollerEnabled(s, p, ReleaseNext(ok))
    ensures JobsOk(PollerApply(c, s, p, ReleaseNext(ok)))
  {
    var s' := PollerApply(c, s, p, ReleaseNext(ok));
    var pc := s.pollers[p].pc;
    assert BatchOk(s, pc);
    assert InBatch(pc, pc.next);
    forall t | 0 <= t < |s'.jobs|
      ensures JobOk(s', t)
    {
      assert JobOk(s, t);
      if s.status[s.jobs[t].msg] == Held(p) {
        NoJobInHand(s, p, t);
      }
    }
  }

  lemma PollerJobs(c: Pool.Conf, s: State, p: nat, e: PollerStep)
    requires JobsOk(s) && BatchesOk(s) && p < |s.pollers| && PollerEnabled(s, p, e)
    ensures JobsOk(PollerApply(c, s, p, e))
  {
    match e
    case Receive(received) => ReceiveJobs(c, s, p, received);
    case SubmitNext => SubmitJobs(c, s, p);
    case TakeAnswer => AnswerJobs(c, s, p);
    case ReleaseNext(ok) => ReleaseJobs(c, s, p, ok);
    case _ => AwayJobs(c, s, p, e);
  }

  lemma JobsStep(c: Pool.Conf, ownerId: string, s: State, a: Action)
    requires JobsOk(s) && BatchesOk(s) && Enabled(c, s, a)
    ensures JobsOk(Apply(c, ownerId, s, a))
  {
    match a
    case OfPool(x) => PoolJobs(c, s, x);
    case FinishJob(w, d, h) => FinishedJobs(c, ownerId, s, w, d, h);
    case OfPoller(p, e) => PollerJobs(c, s, p, e);
    case _ =>
      QuietJobs(c, ownerId, s, a);
      SameBatchesJobs(s, Apply(c, ownerId, s, a));
  }

  // --------------------------------------------------------- no submit fails

  /** A submission still in progress finds the pool running. */
  lemma SubmissionSeesRunning(c: Pool.Conf, s: State, t: nat)
    requires PoolInv.LifecycleOk(s.pool) && LifeOk(s) && PollersOk(s) && JobsOk(s)
    requires t < |s.pool.submits| && !s.pool.submits[t].Returned?
    ensures s.pool.isRunning && s.pool.control == Pool.Running
  {
    assert JobOk(s, t);
    AliveMeansRunning(c, s, s.jobs[t].poller);
  }

  lemma PoolNoneFailed(c: Pool.Conf, s: State, x: Pool.Action)
    requires PoolInv.LifecycleOk(s.pool) && LifeOk(s) && PollersOk(s) && JobsOk(s) && NoneFailed(s)
    requires Pool.Enabled(c, s.pool, x)
    ensures NoneFailed(s.(pool := Pool.Apply(c, s.pool, x)))
  {
    var s' := s.(pool := Pool.Apply(c, s.pool, x));
    if x.BySubmit? {
      var q := s.pool.submits[x.t];
      if !q.Returned? {
        SubmissionSeesRunning(c, s, x.t);
      }
      assert NotFailed(q);
      assert s'.pool.submits == s.pool.submits[x.t := Pool.NextSubmit(c, s.pool, q, x.e)];
    }
  }

  lemma PollerNoneFailed(c: Pool.Conf, s: State, p: nat, e: PollerStep)
    requires NoneFailed(s) && p < |s.pollers| && PollerEnabled(s, p, e)
    ensures NoneFailed(PollerApply(c, s, p, e))
  {
    if e.TakeAnswer? {
      assert NotFailed(s.pool.submits[s.pollers[p].pc.ticket]);
    }
  }

  lemma NoneFailedStep(c: Pool.Conf, ownerId: string, s: State, a: Action)
    requires PoolInv.LifecycleOk(s.pool) && LifeOk(s) && PollersOk(s) && JobsOk(s) && NoneFailed(s)
    requires Enabled(c, s, a)
    ensures NoneFailed(Apply(c, ownerId, s, a))
  {
    match a
    case OfPool(x) => PoolNoneFailed(c, s, x);
    case FinishJob(w, d, h) => PoolNoneFailed(c, s, Pool.ByWorker(w, Pool.FinishJob));
    case OfPoller(p, e) => PollerNoneFailed(c, s, p, e);
    case _ => QuietJobs(c, ownerId, s, a);
  }

  // ---------------------------------------------------------------- effects

  /** A job in the hands of a worker has not been executed before. */
  lemma BusyNotExecuted(c: Pool.Conf, s: State, w: nat)
    requires PoolInv.JobsConserved(s.pool) && w < |s.pool.workers| && s.pool.workers[w].Busy?
    ensures JobOf(s, w) !in s.pool.executed
    ensures JobOf(s, w) < |s.pool.submits|
  {
    var t := JobOf(s, w);
    assert PoolInv.JobConserved(s.pool, t);
    SumBounds(s.pool.workers, PoolInv.HolderOf(t));
    assert PoolInv.HolderOf(t)(s.pool.workers[w]) == 1;
  }

  lemma FinishEffects(c: Pool.Conf, ownerId: string, s: State, w: nat, deleteOk: bool, handleOk: bool)
    requires PoolInv.JobsConserved(s.pool) && EffectsOk(ownerId, s)
    requires Enabled(c, s, FinishJob(w, deleteOk, handleOk))
    ensures EffectsOk(ownerId, FinishApply(c, ownerId, s, w, deleteOk, handleOk))
  {
    BusyNotExecuted(c, s, w);
    var s' := FinishApply(c, ownerId, s, w, deleteOk, handleOk);
    var u := JobOf(s, w);
    assert s'.pool.executed == s.pool.executed + [u];
    forall t | 0 <= t < |s'.jobs|
      ensures EffectOk(ownerId, s', t)
    {
      assert EffectOk(ownerId, s, t);
      assert t in s'.pool.executed <==> t in s.pool.executed || t == u;
    }
  }

  lemma ExecutedOnlyByFinish(c: Pool.Conf, s: Pool.State, x: Pool.Action)
    requires Pool.Enabled(c, s, x) && !(x.ByWorker? && x.k == Pool.FinishJob)
    ensures Pool.Apply(c, s, x).executed == s.executed
  {
  }

  /** A new job has not been executed. */
  lemma NewNotExecuted(c: Pool.Conf, s: State)
    requires PoolInv.JobsConserved(s.pool)
    ensures |s.pool.submits| !in s.pool.executed
  {
    assert PoolInv.JobConserved(s.pool, |s.pool.submits|);
    SumBounds(s.pool.workers, PoolInv.HolderOf(|s.pool.submits|));
  }

  lemma PollerJobRecords(c: Pool.Conf, s: State, p: nat, e: PollerStep)
    requires p < |s.pollers| && PollerEnabled(s, p, e)
    ensures var s' := PollerApply(c, s, p, e);
      && s'.pool.executed == s.pool.executed
      && |s.jobs| <= |s'.jobs| <= |s.jobs| + 1
      && (forall t | 0 <= t < |s.jobs| :: s'.jobs[t] == s.jobs[t])
      && (forall t | |s.jobs| <= t < |s'.jobs| :: s'.jobs[t].state == Jobs.Initial && s'.jobs[t].effects == [])
  {
  }

  lemma SameEffects(ownerId: string, s: State, s': State)
    requires EffectsOk(ownerId, s) && s'.pool.executed == s.pool.executed
    requires |s.jobs| <= |s'.jobs| <= |s.jobs| + 1
    requires forall t | 0 <= t < |s.jobs| :: s'.jobs[t] == s.jobs[t]
    requires forall t | |s.jobs| <= t < |s'.jobs| ::
      t !in s.pool.executed && s'.jobs[t].state == Jobs.Initial && s'.jobs[t].effects == []
    ensures EffectsOk(ownerId, s')
  {
    forall t | 0 <= t < |s'.jobs|
      ensures EffectOk(ownerId, s', t)
    {
      assert t < |s.jobs| ==> EffectOk(ownerId, s, t);
    }
  }

  lemma EffectsStep(c: Pool.Conf, ownerId: string, s: State, a: Action)
    requires PoolInv.JobsConserved(s.pool) && |s.jobs| == |s.pool.submits| && EffectsOk(ownerId, s)
    requires Enabled(c, s, a)
    ensures EffectsOk(ownerId, Apply(c, ownerId, s, a))
  {
    match a
    case FinishJob(w, d, h) => FinishEffects(c, ownerId, s, w, d, h);
    case OfPool(x) =>
      ExecutedOnlyByFinish(c, s.pool, x);
      SameEffects(ownerId, s, Apply(c, ownerId, s, a));
    case OfPoller(p, e) =>
      NewNotExecuted(c, s);
      PollerJobRecords(c, s, p, e);
      SameEffects(ownerId, s, Apply(c, ownerId, s, a));
    case _ =>
      QuietJobs(c, ownerId, s, a);
      SameEffects(ownerId, s, Apply(c, ownerId, s, a));
  }

  // ------------------------------------------------------------------- runs

  lemma PoolStep(c: Pool.Conf, ownerId: string, s: State, a: Action)
    requires c.Valid() && PoolInv.Inv(c, s.pool) && Enabled(c, s, a)
    ensures PoolInv.Inv(c, Apply(c, ownerId, s, a).pool)
  {
    match a
    case OfPool(x) => PoolInv.InvStep(c, s.pool, x);
    case FinishJob(w, _, _) => PoolInv.InvStep(c, s.pool, Pool.ByWorker(w, Pool.FinishJob));
    case OfPoller(p, e) =>
      if e.SubmitNext? {
        PoolInv.InvStep(c, s.pool, Pool.SubmitCall);
      }
    case _ =>
  }

  lemma InvStep(c: Pool.Conf, ownerId: string, s: State, a: Action)
    requires c.Valid() && Inv(c, ownerId, s) && Enabled(c, s, a)
    ensures Inv(c, ownerId, Apply(c, ownerId, s, a))
  {
    PoolStep(c, ownerId, s, a);
    LifeStep(c, ownerId, s, a);
    PollersStep(c, ownerId, s, a);
    OnePerQueueStep(c, ownerId, s, a);
    BatchesStep(c, ownerId, s, a);
    JobsStep(c, ownerId, s, a);
    NoneFailedStep(c, ownerId, s, a);
    EffectsStep(c, ownerId, s, a);
  }

  lemma InvInit(c: Pool.Conf, ownerId: string)
    requires c.Valid()
    ensures Inv(c, ownerId, INIT)
  {
    PoolInv.InvInit(c);
  }

  lemma {:induction false} InvRun(c: Pool.Conf, ownerId: string, s: State, acts: seq<Action>)
    requires c.Valid() && Inv(c, ownerId, s) && IsRun(c, ownerId, s, acts)
    ensures Inv(c, ownerId, Exec(c, ownerId, s, acts))
    decreases |acts|
  {
    if acts != [] {
      InvStep(c, ownerId, s, acts[0]);
      InvRun(c, ownerId, Apply(c, ownerId, s, acts[0]), acts[1..]);
    }
  }

  lemma ReachableInv(c: Pool.Conf, ownerId: string, s: State)
    requires c.Valid() && Reachable(c, ownerId, s)
    ensures Inv(c, ownerId, s)
  {
    var acts :| IsRun(c, ownerId, INIT, acts) && Exec(c, ownerId, INIT, acts) == s;
    InvInit(c, ownerId);
    InvRun(c, ownerId, INIT, acts);
  }
}
