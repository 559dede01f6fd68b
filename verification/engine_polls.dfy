/** A poll in the engine does what the object Poller says, although every other
    goroutine moves between its steps. */
module EnginePolls {
  import Pool = PoolModel
  import Pollers
  import opened EngineModel
  import opened EngineInvariant

  /** What the object sees of an answer of the pool. */
  function AnswerOf(x: Pool.Answer): Pollers.SubmitAnswer {
    match x
    case Accepted => Pollers.Accepted
    case Refused => Pollers.Refused
    case Failed => Pollers.Failed
  }

  function AnswersOf(s: State, a: Action, p: nat): seq<Pollers.SubmitAnswer> {
    if a.OfPoller? && a.p == p && p < |s.pollers| && PollerEnabled(s, p, a.e) && a.e.TakeAnswer?
    then [AnswerOf(s.pool.submits[s.pollers[p].pc.ticket].answer)] else []
  }

  /** The answers poller p gets, and the effects it has, in a run.  first is the
      number of the first message of its batch. */
  function Answers(c: Pool.Conf, ownerId: string, s: State, acts: seq<Action>, p: nat): seq<Pollers.SubmitAnswer>
    requires IsRun(c, ownerId, s, acts)
    decreases |acts|
  {
    if acts == [] then []
    else AnswersOf(s, acts[0], p) + Answers(c, ownerId, Apply(c, ownerId, s, acts[0]), acts[1..], p)
  }

  function EventsOf(s: State, a: Action, p: nat, first: Msg): seq<Pollers.Event> {
    if a.OfPoller? && a.p == p && p < |s.pollers| && PollerEnabled(s, p, a.e) then
      var pc := s.pollers[p].pc;
      match a.e
      case TakeAnswer =>
        if first <= pc.next then [Pollers.Offer(pc.next - first, AnswerOf(s.pool.submits[pc.ticket].answer))] else []
      case ReleaseNext(ok) => if first <= pc.next then [Pollers.Release(pc.next - first, ok)] else []
      case _ => []
    else []
  }

  function Events(c: Pool.Conf, ownerId: string, s: State, acts: seq<Action>, p: nat, first: Msg): seq<Pollers.Event>
    requires IsRun(c, ownerId, s, acts)
    decreases |acts|
  {
    if acts == [] then []
    else EventsOf(s, acts[0], p, first) + Events(c, ownerId, Apply(c, ownerId, s, acts[0]), acts[1..], p, first)
  }

  predicate NoFailure(got: seq<Pollers.SubmitAnswer>) {
    forall i | 0 <= i < |got| :: got[i] != Pollers.Failed
  }

  /** In the middle of a batch of n messages, after the answers got, of which the
      refused ones led to releases with the results oks, and the effects done. */
  predicate Midway(
    pc: PollerPc, first: Msg, n: nat, got: seq<Pollers.SubmitAnswer>, oks: seq<bool>, done: seq<Pollers.Event>)
  {
    && NoFailure(got) && |oks| == |got|
    && match pc
       case Offering(next, batch) =>
         next == first + |got| && |got| + |batch| == n && done == Pollers.Offers(got, oks, |got|)
       case Submitting(next, batch, _) =>
         next == first + |got| && |got| + |batch| == n && batch != [] && done == Pollers.Offers(got, oks, |got|)
       case ReleasingOne(next, batch) =>
         var k := |got| - 1;
         && 0 <= k && next == first + k && k + |batch| == n && batch != []
         && got[k] == Pollers.Refused
         && done == Pollers.Offers(got, oks, k) + [Pollers.Offer(k, Pollers.Refused)]
       case _ => false
  }

  /** Offers depend only on the answers and releases up to n. */
  lemma {:induction false} OffersPrefix(
    got: seq<Pollers.SubmitAnswer>, oks: seq<bool>, got': seq<Pollers.SubmitAnswer>, oks': seq<bool>, n: nat)
    requires n <= |got| && n <= |oks| && n <= |got'| && n <= |oks'|
    requires got[..n] == got'[..n] && oks[..n] == oks'[..n]
    ensures Pollers.Offers(got, oks, n) == Pollers.Offers(got', oks', n)
  {
    if n > 0 {
      assert got[..n][..n - 1] == got[..n - 1] && got'[..n][..n - 1] == got'[..n - 1];
      assert oks[..n][..n - 1] == oks[..n - 1] && oks'[..n][..n - 1] == oks'[..n - 1];
      assert got[n - 1] == got[..n][n - 1] && oks[n - 1] == oks[..n][n - 1];
      OffersPrefix(got, oks, got', oks', n - 1);
    }
  }

  lemma AnswerMidway(
    pc: PollerPc, first: Msg, n: nat, got: seq<Pollers.SubmitAnswer>, oks: seq<bool>, done: seq<Pollers.Event>,
    x: Pollers.SubmitAnswer)
    requires pc.Submitting? && Midway(pc, first, n, got, oks, done) && x != Pollers.Failed
    ensures var got', oks' := got + [x], oks + [true];
      var done' := done + [Pollers.Offer(pc.next - first, x)];
      && (x == Pollers.Accepted ==> Midway(Offering(pc.next + 1, Rest(pc.batch)), first, n, got', oks', done'))
      && (x == Pollers.Refused ==> Midway(ReleasingOne(pc.next, pc.batch), first, n, got', oks', done'))
  {
    OffersPrefix(got, oks, got + [x], oks + [true], |got|);
  }

  lemma ReleaseMidway(
    pc: PollerPc, first: Msg, n: nat, got: seq<Pollers.SubmitAnswer>, oks: seq<bool>, done: seq<Pollers.Event>,
    ok: bool)
    requires pc.ReleasingOne? && Midway(pc, first, n, got, oks, done)
    ensures var oks' := oks[|got| - 1 := ok];
      Midway(Offering(pc.next + 1, Rest(pc.batch)), first, n, got, oks', done + [Pollers.Release(pc.next - first, ok)])
  {
    var k := |got| - 1;
    var oks' := oks[k := ok];
    OffersPrefix(got, oks, got, oks', k);
    assert Pollers.OfferEvents(got, oks', k) == [Pollers.Offer(k, Pollers.Refused)] + [Pollers.Release(k, ok)];
  }

  lemma PcStays(c: Pool.Conf, ownerId: string, s: State, a: Action, p: nat)
    requires Enabled(c, s, a) && p < |s.pollers| && !(a.OfPoller? && a.p == p)
    ensures p < |Apply(c, ownerId, s, a).pollers| && Apply(c, ownerId, s, a).pollers[p].pc == s.pollers[p].pc
    ensures AnswersOf(s, a, p) == [] && forall first :: EventsOf(s, a, p, first) == []
  {
    match a
    case Proc(x) =>
    case Runner(r) =>
    case Puller(y) =>
    case OfPoller(q, e) =>
    case StopOf(q, z) =>
    case OfPool(x) =>
    case FinishJob(w, _, _) =>
  }

  /** A step of the poller within its batch. */
  lemma OwnStep(
    c: Pool.Conf, s: State, p: nat, e: PollerStep, first: Msg, n: nat,
    got: seq<Pollers.SubmitAnswer>, oks: seq<bool>, done: seq<Pollers.Event>)
    returns (oks': seq<bool>)
    requires NoneFailed(s) && p < |s.pollers| && PollerEnabled(s, p, e) && e != BatchDone
    requires Midway(s.pollers[p].pc, first, n, got, oks, done)
    ensures Midway(NextPc(c, s, p, e), first, n,
                   got + AnswersOf(s, OfPoller(p, e), p), oks', done + EventsOf(s, OfPoller(p, e), p, first))
  {
    var pc := s.pollers[p].pc;
    assert got + [] == got && done + [] == done;
    oks' := oks;
    if e.TakeAnswer? {
      assert NotFailed(s.pool.submits[pc.ticket]);
      AnswerMidway(pc, first, n, got, oks, done, AnswerOf(s.pool.submits[pc.ticket].answer));
      oks' := oks + [true];
    } else if e.ReleaseNext? {
      ReleaseMidway(pc, first, n, got, oks, done, e.ok);
      oks' := oks[|got| - 1 := e.ok];
    }
  }

  /** Any step. */
  lemma StepMidway(
    c: Pool.Conf, ownerId: string, s: State, a: Action, p: nat, first: Msg, n: nat,
    got: seq<Pollers.SubmitAnswer>, oks: seq<bool>, done: seq<Pollers.Event>)
    returns (oks': seq<bool>)
    requires NoneFailed(s) && Enabled(c, s, a) && a != OfPoller(p, BatchDone)
    requires p < |s.pollers| && Midway(s.pollers[p].pc, first, n, got, oks, done)
    ensures var s' := Apply(c, ownerId, s, a);
      && p < |s'.pollers|
      && Midway(s'.pollers[p].pc, first, n, got + AnswersOf(s, a, p), oks', done + EventsOf(s, a, p, first))
  {
    if a.OfPoller? && a.p == p {
      oks' := OwnStep(c, s, p, a.e, first, n, got, oks, done);
    } else {
      PcStays(c, ownerId, s, a, p);
      assert got + [] == got && done + [] == done;
      oks' := oks;
    }
  }

  /** Poller p does not leave its batch in the run. */
  predicate StaysInBatch(acts: seq<Action>, p: nat) {
    forall i | 0 <= i < |acts| :: acts[i] != OfPoller(p, BatchDone)
  }

  /** The pool answers no call of the run with an error. */
  predicate NeverFails(c: Pool.Conf, ownerId: string, s: State, acts: seq<Action>)
    requires IsRun(c, ownerId, s, acts)
    decreases |acts|
  {
    NoneFailed(s) && (acts == [] || NeverFails(c, ownerId, Apply(c, ownerId, s, acts[0]), acts[1..]))
  }

  lemma {:induction false} InvNeverFails(c: Pool.Conf, ownerId: string, s: State, acts: seq<Action>)
    requires c.Valid() && Inv(c, ownerId, s) && IsRun(c, ownerId, s, acts)
    ensures NeverFails(c, ownerId, s, acts)
    decreases |acts|
  {
    if acts != [] {
      InvStep(c, ownerId, s, acts[0]);
      InvNeverFails(c, ownerId, Apply(c, ownerId, s, acts[0]), acts[1..]);
    }
  }

  lemma Associates<T>(x: seq<T>, y: seq<T>, z: seq<T>)
    ensures (x + y) + z == x + (y + z)
  {
  }

  lemma {:induction false} RunMidway(
    c: Pool.Conf, ownerId: string, s: State, acts: seq<Action>, p: nat, first: Msg, n: nat,
    got: seq<Pollers.SubmitAnswer>, oks: seq<bool>, done: seq<Pollers.Event>)
    returns (oks': seq<bool>)
    requires IsRun(c, ownerId, s, acts) && NeverFails(c, ownerId, s, acts) && StaysInBatch(acts, p)
    requires p < |s.pollers| && Midway(s.pollers[p].pc, first, n, got, oks, done)
    ensures p < |Exec(c, ownerId, s, acts).pollers|
    ensures Midway(Exec(c, ownerId, s, acts).pollers[p].pc, first, n,
                   got + Answers(c, ownerId, s, acts, p), oks', done + Events(c, ownerId, s, acts, p, first))
    decreases |acts|
  {
    if acts == [] {
      assert got + [] == got && done + [] == done;
      oks' := oks;
    } else {
      var a, rest := acts[0], acts[1..];
      var s' := Apply(c, ownerId, s, a);
      var got' := got + AnswersOf(s, a, p);
      var done' := done + EventsOf(s, a, p, first);
      oks' := StepMidway(c, ownerId, s, a, p, first, n, got, oks, done);
      assert StaysInBatch(rest, p);
      oks' := RunMidway(c, ownerId, s', rest, p, first, n, got', oks', done');
      Associates(got, AnswersOf(s, a, p), Answers(c, ownerId, s', rest, p));
      Associates(done, EventsOf(s, a, p, first), Events(c, ownerId, s', rest, p, first));
    }
  }

  /** From the reception of a batch to the end of its loop, in any interleaving,
      the poller has exactly the effects that Poller.SubmitBatch has for the
      answers it gets and for some results of the releases. */
  lemma PollDoesItsBatch(c: Pool.Conf, ownerId: string, s: State, acts: seq<Action>, p: nat)
    returns (releases: seq<bool>)
    requires c.Valid() && Reachable(c, ownerId, s) && IsRun(c, ownerId, s, acts) && StaysInBatch(acts, p)
    requires p < |s.pollers| && s.pollers[p].pc.Offering?
    requires var s' := Exec(c, ownerId, s, acts);
      p < |s'.pollers| && s'.pollers[p].pc.Offering? && s'.pollers[p].pc.batch == []
    ensures var got := Answers(c, ownerId, s, acts, p);
      && |got| == |releases| == |s.pollers[p].pc.batch|
      && Events(c, ownerId, s, acts, p, s.pollers[p].pc.next) == Pollers.BatchEvents(got, releases)
  {
    ReachableInv(c, ownerId, s);
    InvNeverFails(c, ownerId, s, acts);
    var pc := s.pollers[p].pc;
    releases := RunMidway(c, ownerId, s, acts, p, pc.next, |pc.batch|, [], [], []);
    var got := Answers(c, ownerId, s, acts, p);
    assert [] + got == got;
    assert [] + Events(c, ownerId, s, acts, p, pc.next) == Events(c, ownerId, s, acts, p, pc.next);
    assert Pollers.FirstFailure(got) == |got|;
  }
}
