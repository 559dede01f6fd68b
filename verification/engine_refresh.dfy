/** The refresh of the pollers, step by step between those of everybody else, has
    the result that Reconciliation describes. */
module EngineRefresh {
  import Pool = PoolModel
  import opened EngineModel
  import opened Naming
  import opened Reconciliation
  import opened Tokens

  /** No two pollers in the map are of one queue. */
  predicate UniqueInMap(ps: seq<Poller>) {
    forall p, q | 0 <= p < q < |ps| && ps[p].inMap && ps[q].inMap :: ps[p].url != ps[q].url
  }

  /** roles is what the pollers in the map hold. */
  ghost predicate HeldBy(ps: seq<Poller>, roles: Roles) {
    && (forall p | 0 <= p < |ps| && ps[p].inMap :: ps[p].url in roles && roles[ps[p].url] == ps[p].role)
    && (forall u | u in roles :: exists p | 0 <= p < |ps| :: ps[p].inMap && ps[p].url == u)
  }

  lemma {:induction false} RolesHeld(ps: seq<Poller>)
    requires UniqueInMap(ps)
    ensures HeldBy(ps, RolesOf(ps))
  {
    if ps != [] {
      var n := |ps| - 1;
      var rest := ps[..n];
      RolesHeld(rest);
      forall u | u in RolesOf(ps)
        ensures exists p | 0 <= p < |ps| :: ps[p].inMap && ps[p].url == u
      {
        if u in RolesOf(rest) {
          var p :| 0 <= p < n && rest[p].inMap && rest[p].url == u;
          assert ps[p].inMap && ps[p].url == u;
        }
      }
      forall p | 0 <= p < |ps| && ps[p].inMap
        ensures ps[p].url in RolesOf(ps) && RolesOf(ps)[ps[p].url] == ps[p].role
      {
        assert p < n ==> rest[p] == ps[p];
      }
    }
  }

  /** What the pollers hold is determined by them. */
  lemma HeldOnce(ps: seq<Poller>, roles: Roles, roles': Roles)
    requires HeldBy(ps, roles) && HeldBy(ps, roles')
    ensures roles == roles'
  {
    assert forall u :: u in roles <==> u in roles';
  }

  lemma RolesAre(ps: seq<Poller>, roles: Roles)
    requires UniqueInMap(ps) && HeldBy(ps, roles)
    ensures RolesOf(ps) == roles
  {
    RolesHeld(ps);
    HeldOnce(ps, RolesOf(ps), roles);
  }

  /** Pollers that hold the same credentials for the same queues. */
  predicate SameHolders(ps: seq<Poller>, ps': seq<Poller>) {
    && |ps| == |ps'|
    && forall p | 0 <= p < |ps| ::
         ps'[p].url == ps[p].url && ps'[p].role == ps[p].role && ps'[p].inMap == ps[p].inMap
  }

  lemma {:induction false} SameRoles(ps: seq<Poller>, ps': seq<Poller>)
    requires SameHolders(ps, ps')
    ensures RolesOf(ps') == RolesOf(ps)
  {
    if ps != [] {
      SameRoles(ps[..|ps| - 1], ps'[..|ps| - 1]);
    }
  }

  lemma RolesAfterRefresh(ps: seq<Poller>, p: nat, role: AssumeRoleResult)
    requires UniqueInMap(ps) && p < |ps| && ps[p].inMap
    ensures UniqueInMap(ps[p := ps[p].(role := role)])
    ensures RolesOf(ps[p := ps[p].(role := role)]) == RolesOf(ps)[ps[p].url := role]
  {
    RolesHeld(ps);
    var ps' := ps[p := ps[p].(role := role)];
    var roles := RolesOf(ps)[ps[p].url := role];
    forall u | u in roles
      ensures exists q | 0 <= q < |ps'| :: ps'[q].inMap && ps'[q].url == u
    {
      var q :| 0 <= q < |ps| && ps[q].inMap && ps[q].url == u;
      assert ps'[q].inMap && ps'[q].url == u;
    }
    RolesAre(ps', roles);
  }

  lemma RolesAfterAdding(ps: seq<Poller>, x: Poller)
    requires UniqueInMap(ps) && x.inMap && x.url !in RolesOf(ps)
    ensures UniqueInMap(ps + [x])
    ensures RolesOf(ps + [x]) == RolesOf(ps)[x.url := x.role]
  {
    RolesHeld(ps);
    assert (ps + [x])[..|ps|] == ps;
  }

  lemma RolesAfterRemoval(ps: seq<Poller>, p: nat, x: Poller)
    requires UniqueInMap(ps) && p < |ps| && ps[p].inMap && !x.inMap
    ensures UniqueInMap(ps[p := x])
    ensures RolesOf(ps[p := x]) == RolesOf(ps) - {ps[p].url}
  {
    RolesHeld(ps);
    var ps' := ps[p := x];
    var roles := RolesOf(ps) - {ps[p].url};
    forall u | u in roles
      ensures exists q | 0 <= q < |ps'| :: ps'[q].inMap && ps'[q].url == u
    {
      var q :| 0 <= q < |ps| && ps[q].inMap && ps[q].url == u;
      assert ps'[q].inMap && ps'[q].url == u;
    }
    RolesAre(ps', roles);
  }

  // -------------------------------------------------------------- invariant

  predicate InRefresh(s: State) {
    s.proc in {StartingPool, FirstRefresh} || s.runner == Refreshing
  }

  /** The queues polled before that the first n entries do not name. */
  function Unnamed(r: Refresh, n: nat): set<Url>
    requires n <= |r.list|
  {
    set u | u in r.before && !Named(r.list[..n], u)
  }

  ghost predicate ProgressOk(s: State)
    requires |s.refresh.oks| == |s.refresh.list| && s.refresh.done <= |s.refresh.list|
  {
    var r := s.refresh;
    && r.stale <= Unnamed(r, r.done)
    && (r.done < |r.list| ==> r.stale == Unnamed(r, r.done))
    && RolesOf(s.pollers) ==
         AbsorbAll(r.before, r.list[..r.done], r.oks[..r.done]) - (Unnamed(r, r.done) - r.stale)
  }

  ghost predicate RefreshOk(s: State) {
    && |s.refresh.oks| == |s.refresh.list| && s.refresh.done <= |s.refresh.list|
    && UniqueInMap(s.pollers)
    && (InRefresh(s) ==> ProgressOk(s))
    && (s.runner == NotStarted <==> s.proc in {ProcCreated, StartingPool, FirstRefresh})
    && (s.proc in {ProcCreated, StartingPool} ==> s.pollers == [])
  }

  lemma BeginOk(s: State, token: Token, oks: seq<bool>, before: Roles)
    requires UniqueInMap(s.pollers) && RolesOf(s.pollers) == before && |oks| == |token.queuePropertiesList|
    requires s.refresh == Refresh(token.queuePropertiesList, oks, 0, before.Keys, before)
    ensures ProgressOk(s)
  {
    var r := s.refresh;
    assert r.list[..0] == [] && r.oks[..0] == [];
    assert Unnamed(r, 0) == before.Keys;
  }

  /** The refresh after its next entry, u being the queue of the entry. */
  function Next(r: Refresh, u: Url): Refresh {
    r.(done := r.done + 1, stale := r.stale - {u})
  }

  lemma NextUnnamed(r: Refresh)
    requires r.done < |r.list|
    ensures Unnamed(Next(r, r.list[r.done].url), r.done + 1) == Unnamed(r, r.done) - {r.list[r.done].url}
  {
    OccursSnoc(r.list, UrlOf, r.done);
  }

  /** While entries are dealt with, no queue has been removed yet. */
  lemma NoneRemoved(r: Refresh, n: nat)
    requires n <= |r.list| == |r.oks| && r.stale == Unnamed(r, n)
    ensures var m := AbsorbAll(r.before, r.list[..n], r.oks[..n]); m - (Unnamed(r, n) - r.stale) == m
  {
    assert Unnamed(r, n) - r.stale == {};
  }

  /** The entry at hand turns what the pollers hold into what Absorb says. */
  lemma EntryDone(s: State, s': State)
    requires RefreshOk(s) && AtEntry(s) && ProgressOk(s)
    requires s'.refresh == Next(s.refresh, Entry(s).url)
    requires RolesOf(s'.pollers) == Absorb(RolesOf(s.pollers), Entry(s), EntryOk(s))
    ensures ProgressOk(s')
  {
    var r, r' := s.refresh, s'.refresh;
    NextUnnamed(r);
    NoneRemoved(r, r.done);
    NoneRemoved(r', r.done + 1);
    AbsorbSnoc(r.before, r.list, r.oks, r.done);
  }

  lemma PolledIsHeld(s: State, u: Url)
    requires UniqueInMap(s.pollers)
    ensures Polled(s, u) <==> u in RolesOf(s.pollers)
  {
    RolesHeld(s.pollers);
  }

  lemma ClientRefreshed(s: State, p: nat)
    requires RefreshOk(s) && ProgressOk(s) && RunnerEnabled(s, RefreshClient(p))
    ensures RefreshOk(RunnerApply(s, RefreshClient(p)))
  {
    var s' := RunnerApply(s, RefreshClient(p));
    PolledIsHeld(s, Entry(s).url);
    if Entry(s).assumeRoleResult != NO_ROLE && EntryOk(s) {
      RolesAfterRefresh(s.pollers, p, Entry(s).assumeRoleResult);
    } else {
      assert s'.pollers == s.pollers;
    }
    EntryDone(s, s');
  }

  /** A queue that is not polled has not been polled before either. */
  lemma NotStale(s: State, u: Url)
    requires RefreshOk(s) && ProgressOk(s) && AtEntry(s) && !Polled(s, u)
    ensures Next(s.refresh, u) == s.refresh.(done := s.refresh.done + 1)
  {
    var r := s.refresh;
    PolledIsHeld(s, u);
    AbsorbedKeys(r.before, r.list[..r.done], r.oks[..r.done], u);
    assert r.stale - {u} == r.stale;
  }

  lemma PollerAdded(s: State)
    requires RefreshOk(s) && ProgressOk(s) && RunnerEnabled(s, AddPoller) && s.proc !in {ProcCreated, StartingPool}
    ensures RefreshOk(RunnerApply(s, AddPoller))
  {
    var s' := RunnerApply(s, AddPoller);
    PolledIsHeld(s, Entry(s).url);
    NotStale(s, Entry(s).url);
    RolesAfterAdding(s.pollers, Added(Entry(s)));
    EntryDone(s, s');
  }

  lemma EntrySkipped(s: State)
    requires RefreshOk(s) && ProgressOk(s) && RunnerEnabled(s, SkipEntry)
    ensures RefreshOk(RunnerApply(s, SkipEntry))
  {
    var s' := RunnerApply(s, SkipEntry);
    NotStale(s, Entry(s).url);
    PolledIsHeld(s, Entry(s).url);
    EntryDone(s, s');
  }

  lemma PollerRemoved(s: State, p: nat)
    requires RefreshOk(s) && ProgressOk(s) && RunnerEnabled(s, RemovePoller(p))
    ensures RefreshOk(RunnerApply(s, RemovePoller(p)))
  {
    var s' := RunnerApply(s, RemovePoller(p));
    var r, u := s.refresh, s.pollers[p].url;
    RolesAfterRemoval(s.pollers, p, s'.pollers[p]);
    var m := AbsorbAll(r.before, r.list[..r.done], r.oks[..r.done]);
    assert Unnamed(s'.refresh, r.done) - s'.refresh.stale == (Unnamed(r, r.done) - r.stale) + {u};
    assert (m - (Unnamed(r, r.done) - r.stale)) - {u} == m - ((Unnamed(r, r.done) - r.stale) + {u});
  }

  lemma RunnerRefresh(s: State, r: RunnerStep)
    requires RefreshOk(s) && RunnerEnabled(s, r)
    ensures RefreshOk(RunnerApply(s, r))
  {
    match r
    case RefreshClient(p) => ClientRefreshed(s, p);
    case AddPoller => PollerAdded(s);
    case SkipEntry => EntrySkipped(s);
    case RemovePoller(p) => PollerRemoved(s, p);
    case TokenReceived(token, oks) => BeginOk(RunnerApply(s, r), token, oks, RolesOf(s.pollers));
    case StopPoller(p) => SameRoles(s.pollers, RunnerApply(s, r).pollers);
    case _ =>
  }

  lemma ProcRefresh(s: State, x: ProcStep)
    requires RefreshOk(s) && ProcEnabled(s, x)
    ensures RefreshOk(ProcApply(s, x))
  {
    if x.Start? {
      BeginOk(ProcApply(s, x), x.token, x.oks, map[]);
    }
  }

  /** The refresh and what the pollers hold have not changed. */
  predicate OutsideRefresh(s: State, s': State) {
    s'.refresh == s.refresh && s'.proc == s.proc && s'.runner == s.runner && SameHolders(s.pollers, s'.pollers)
  }

  lemma PollerIsOutside(c: Pool.Conf, s: State, p: nat, e: PollerStep)
    requires p < |s.pollers| && PollerEnabled(s, p, e)
    ensures OutsideRefresh(s, PollerApply(c, s, p, e))
  {
    assert PollerApply(c, s, p, e).pollers == s.pollers[p := s.pollers[p].(pc := NextPc(c, s, p, e))];
  }

  lemma OthersAreOutside(c: Pool.Conf, ownerId: string, s: State, a: Action)
    requires Enabled(c, s, a) && !a.Proc? && !a.Runner?
    ensures OutsideRefresh(s, Apply(c, ownerId, s, a))
  {
    match a
    case Puller(y) =>
    case OfPoller(p, e) => PollerIsOutside(c, s, p, e);
    case StopOf(p, z) =>
    case OfPool(x) =>
    case FinishJob(w, d, h) =>
  }

  lemma OutsideKeeps(s: State, s': State)
    requires RefreshOk(s) && OutsideRefresh(s, s')
    ensures RefreshOk(s')
  {
    SameRoles(s.pollers, s'.pollers);
  }

  lemma RefreshStep(c: Pool.Conf, ownerId: string, s: State, a: Action)
    requires RefreshOk(s) && Enabled(c, s, a)
    ensures RefreshOk(Apply(c, ownerId, s, a))
  {
    match a
    case Proc(x) => ProcRefresh(s, x);
    case Runner(r) => RunnerRefresh(s, r);
    case _ =>
      OthersAreOutside(c, ownerId, s, a);
      OutsideKeeps(s, Apply(c, ownerId, s, a));
  }

  lemma {:induction false} RefreshRun(c: Pool.Conf, ownerId: string, s: State, acts: seq<Action>)
    requires RefreshOk(s) && IsRun(c, ownerId, s, acts)
    ensures RefreshOk(Exec(c, ownerId, s, acts))
    decreases |acts|
  {
    if acts != [] {
      RefreshStep(c, ownerId, s, acts[0]);
      RefreshRun(c, ownerId, Apply(c, ownerId, s, acts[0]), acts[1..]);
    }
  }

  lemma ReachableRefreshOk(c: Pool.Conf, ownerId: string, s: State)
    requires Reachable(c, ownerId, s)
    ensures RefreshOk(s)
  {
    var acts :| IsRun(c, ownerId, INIT, acts) && Exec(c, ownerId, INIT, acts) == s;
    RefreshRun(c, ownerId, INIT, acts);
  }

  // ------------------------------------------------------------- the result

  lemma RefreshIsAfterToken(s: State)
    requires RefreshOk(s) && InRefresh(s) && RefreshOver(s)
    ensures RolesOf(s.pollers) == AfterToken(s.refresh.before, s.refresh.list, s.refresh.oks)
  {
    var r := s.refresh;
    assert r.list[..r.done] == r.list && r.oks[..r.done] == r.oks;
    var keys := Unnamed(r, r.done);
    AfterRemoval(r.before, r.list, r.oks, keys);
    assert keys - r.stale == keys;
  }

  /** When a refresh is over, the pollers in the map and their credentials are what
      Reconciliation makes of those before. */
  lemma RefreshResult(c: Pool.Conf, ownerId: string, s: State)
    requires Reachable(c, ownerId, s) && InRefresh(s) && RefreshOver(s)
    ensures |s.refresh.oks| == |s.refresh.list|
    ensures HeldBy(s.pollers, AfterToken(s.refresh.before, s.refresh.list, s.refresh.oks))
  {
    ReachableRefreshOk(c, ownerId, s);
    RefreshIsAfterToken(s);
    RolesHeld(s.pollers);
  }

  /** Keys left over are those of pollers in the map. */
  lemma StaleIsPolled(s: State, u: Url) returns (p: nat)
    requires RefreshOk(s) && ProgressOk(s) && u in s.refresh.stale
    ensures p < |s.pollers| && s.pollers[p].inMap && s.pollers[p].url == u
  {
    var r := s.refresh;
    AbsorbedKeys(r.before, r.list[..r.done], r.oks[..r.done], u);
    RolesHeld(s.pollers);
    assert u in RolesOf(s.pollers);
    p :| p < |s.pollers| && s.pollers[p].inMap && s.pollers[p].url == u;
  }

  /** Until a refresh is over its next step is possible, except while it waits for
      a poller to stop. */
  lemma RefreshNotStuck(c: Pool.Conf, ownerId: string, s: State) returns (r: RunnerStep)
    requires Reachable(c, ownerId, s) && IsRefreshing(s) && !RefreshOver(s)
    ensures RunnerEnabled(s, r) && (r.RefreshClient? || r.AddPoller? || r.SkipEntry? || r.RemovePoller?)
  {
    ReachableRefreshOk(c, ownerId, s);
    if s.refresh.done < |s.refresh.list| {
      if p: nat :| p < |s.pollers| && s.pollers[p].inMap && s.pollers[p].url == Entry(s).url {
        r := RefreshClient(p);
      } else {
        r := if EntryOk(s) then AddPoller else SkipEntry;
      }
    } else {
      var u :| u in s.refresh.stale;
      var p := StaleIsPolled(s, u);
      r := RemovePoller(p);
    }
  }
}
