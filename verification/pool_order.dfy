/** The buffer is a queue: jobs are taken from it in the order in which they were
    put into it. */
module PoolOrder {
  import opened PoolModel

  /** The job that an action puts into the buffer. */
  function Sent(a: Action): seq<Ticket> {
    match a
    case BySubmit(t, SendBuffer) => [t]
    case _ => []
  }

  /** The job that a worker holds because of its receive. */
  function Taken(c: Conf, s: State, a: Action): seq<Ticket>
    requires Enabled(c, s, a)
  {
    match a
    case ByWorker(w, Receive) =>
      var ws := Apply(c, s, a).workers;
      if w < |ws| && ws[w].Took? then [ws[w].job] else []
    case _ => []
  }

  function AllSent(acts: seq<Action>): seq<Ticket> {
    if acts == [] then [] else Sent(acts[0]) + AllSent(acts[1..])
  }

  function AllTaken(c: Conf, s: State, acts: seq<Action>): seq<Ticket>
    requires IsRun(c, s, acts)
    decreases |acts|
  {
    if acts == [] then [] else Taken(c, s, acts[0]) + AllTaken(c, Apply(c, s, acts[0]), acts[1..])
  }

  lemma WorkerQueue(c: Conf, s: State, w: nat, k: WorkerStep)
    requires Enabled(c, s, ByWorker(w, k))
    ensures s.queue == Taken(c, s, ByWorker(w, k)) + WorkerApply(c, s, w, k).queue
  {
    var s' := WorkerApply(c, s, w, k);
    if k == Receive && s.queue != [] {
      assert s'.workers[w] == Took(s.queue[0]);
      assert s.queue == [s.queue[0]] + s.queue[1..];
    } else {
      assert s'.queue == s.queue;
    }
  }

  lemma QueueStep(c: Conf, s: State, a: Action)
    requires Enabled(c, s, a)
    ensures s.queue + Sent(a) == Taken(c, s, a) + Apply(c, s, a).queue
  {
    match a
    case ByCaller(x) =>
    case ByStarter(x) =>
    case SubmitCall =>
    case BySubmit(t, e) => assert e != SendBuffer ==> SubmitApply(c, s, t, e).queue == s.queue;
    case ByWorker(w, k) => WorkerQueue(c, s, w, k);
  }

  lemma Regroup<T>(x: seq<T>, y: seq<T>, z: seq<T>)
    ensures (x + y) + z == x + (y + z)
  {
  }

  /** What was in the buffer and what is put into it during a run is what is taken
      from it and what is left, in this order. */
  lemma {:induction false} FirstInFirstOut(c: Conf, s: State, acts: seq<Action>)
    requires IsRun(c, s, acts)
    ensures s.queue + AllSent(acts) == AllTaken(c, s, acts) + Exec(c, s, acts).queue
    decreases |acts|
  {
    if acts != [] {
      var a, rest := acts[0], acts[1..];
      var s' := Apply(c, s, a);
      QueueStep(c, s, a);
      FirstInFirstOut(c, s', rest);
      Regroup(s.queue, Sent(a), AllSent(rest));
      Regroup(Taken(c, s, a), s'.queue, AllSent(rest));
      Regroup(Taken(c, s, a), AllTaken(c, s', rest), Exec(c, s', rest).queue);
    }
  }
}
