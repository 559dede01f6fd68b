/** Over a whole run the pollers hold what the tokens received so far call for. */
module EngineTokens {
  import Pool = PoolModel
  import opened EngineModel
  import opened EngineRefresh
  import opened EngineInvariant
  import opened EngineTheorems
  import opened Reconciliation
  import opened Tokens

  /** The tokens of a run: that of Start and those fetched later. */
  function TokensOf(a: Action): seq<Token> {
    match a
    case Proc(Start(_, token, _)) => [token]
    case Runner(TokenReceived(token, _)) => [token]
    case _ => []
  }

  /** For each of them, which sessions can be created. */
  function OksOf(a: Action): seq<seq<bool>> {
    match a
    case Proc(Start(_, _, oks)) => [oks]
    case Runner(TokenReceived(_, oks)) => [oks]
    case _ => []
  }

  function TokensIn(acts: seq<Action>): seq<Token> {
    if acts == [] then [] else TokensOf(acts[0]) + TokensIn(acts[1..])
  }

  function OksIn(acts: seq<Action>): seq<seq<bool>> {
    if acts == [] then [] else OksOf(acts[0]) + OksIn(acts[1..])
  }

  /** The pollers after the tokens received so far; during a refresh the last one
      is being worked through. */
  ghost predicate TokensHeld(s: State, tokens: seq<Token>, oks: seq<seq<bool>>) {
    && TokensOk(tokens, oks)
    && if s.proc == ProcCreated then tokens == []
       else if InRefresh(s) then
         var n := |tokens| - 1;
         && 0 <= n
         && s.refresh.list == tokens[n].queuePropertiesList && s.refresh.oks == oks[n]
         && s.refresh.before == AfterTokens(map[], tokens[..n], oks[..n])
       else RolesOf(s.pollers) == AfterTokens(map[], tokens, oks)
  }

  lemma TokenArrives(s: State, s': State, token: Token, sessionOk: seq<bool>, tokens: seq<Token>, oks: seq<seq<bool>>)
    requires TokensOk(tokens, oks) && |sessionOk| == |token.queuePropertiesList|
    requires s'.proc != ProcCreated && InRefresh(s')
    requires s'.refresh.list == token.queuePropertiesList && s'.refresh.oks == sessionOk
    requires s'.refresh.before == AfterTokens(map[], tokens, oks)
    ensures TokensHeld(s', tokens + [token], oks + [sessionOk])
  {
    assert (tokens + [token])[..|tokens|] == tokens && (oks + [sessionOk])[..|oks|] == oks;
  }

  lemma TokenDone(s: State, s': State, tokens: seq<Token>, oks: seq<seq<bool>>)
    requires RefreshOk(s) && InRefresh(s) && RefreshOver(s) && s.proc != ProcCreated && TokensHeld(s, tokens, oks)
    requires s'.proc != ProcCreated && !InRefresh(s') && s'.pollers == s.pollers
    ensures TokensHeld(s', tokens, oks)
  {
    RefreshIsAfterToken(s);
  }

  /** Other steps of the processor and of its goroutine for tokens. */
  ghost predicate SameToken(s: State, s': State) {
    && InRefresh(s') == InRefresh(s)
    && (s'.proc == ProcCreated) == (s.proc == ProcCreated)
    && s'.refresh.list == s.refresh.list && s'.refresh.oks == s.refresh.oks
    && s'.refresh.before == s.refresh.before
    && (!InRefresh(s) ==> RolesOf(s'.pollers) == RolesOf(s.pollers))
  }

  lemma SameTokenKeeps(s: State, s': State, tokens: seq<Token>, oks: seq<seq<bool>>)
    requires TokensHeld(s, tokens, oks) && SameToken(s, s')
    ensures TokensHeld(s', tokens, oks)
  {
  }

  lemma RunnerSameToken(s: State, r: RunnerStep)
    requires LifeOk(s) && RunnerEnabled(s, r) && !r.TokenReceived? && !r.RefreshDone?
    ensures SameToken(s, RunnerApply(s, r))
  {
    if r.StopPoller? {
      SameRoles(s.pollers, RunnerApply(s, r).pollers);
    }
  }

  lemma RunnerReceives(s: State, token: Token, sessionOk: seq<bool>, tokens: seq<Token>, oks: seq<seq<bool>>)
    requires LifeOk(s) && TokensHeld(s, tokens, oks) && RunnerEnabled(s, TokenReceived(token, sessionOk))
    ensures TokensHeld(RunnerApply(s, TokenReceived(token, sessionOk)), tokens + [token], oks + [sessionOk])
  {
    TokenArrives(s, RunnerApply(s, TokenReceived(token, sessionOk)), token, sessionOk, tokens, oks);
  }

  lemma RunnerGoesOn(s: State, r: RunnerStep, tokens: seq<Token>, oks: seq<seq<bool>>)
    requires RefreshOk(s) && LifeOk(s) && TokensHeld(s, tokens, oks) && RunnerEnabled(s, r) && !r.TokenReceived?
    ensures TokensHeld(RunnerApply(s, r), tokens, oks)
  {
    if r.RefreshDone? {
      TokenDone(s, RunnerApply(s, r), tokens, oks);
    } else {
      RunnerSameToken(s, r);
      SameTokenKeeps(s, RunnerApply(s, r), tokens, oks);
    }
  }

  lemma RunnerTokens(s: State, r: RunnerStep, tokens: seq<Token>, oks: seq<seq<bool>>)
    requires RefreshOk(s) && LifeOk(s) && TokensHeld(s, tokens, oks) && RunnerEnabled(s, r)
    ensures TokensHeld(RunnerApply(s, r), tokens + TokensOf(Runner(r)), oks + OksOf(Runner(r)))
  {
    if r.TokenReceived? {
      RunnerReceives(s, r.token, r.oks, tokens, oks);
    } else {
      assert tokens + [] == tokens && oks + [] == oks;
      RunnerGoesOn(s, r, tokens, oks);
    }
  }

  lemma ProcTokens(s: State, x: ProcStep, tokens: seq<Token>, oks: seq<seq<bool>>)
    requires RefreshOk(s) && LifeOk(s) && TokensHeld(s, tokens, oks) && ProcEnabled(s, x)
    ensures TokensHeld(ProcApply(s, x), tokens + TokensOf(Proc(x)), oks + OksOf(Proc(x)))
  {
    var s' := ProcApply(s, x);
    assert tokens + [] == tokens && oks + [] == oks;
    if x.Start? {
      TokenArrives(s, s', x.token, x.oks, tokens, oks);
    } else if x.StartReturns? {
      TokenDone(s, s', tokens, oks);
    } else {
      SameTokenKeeps(s, s', tokens, oks);
    }
  }

  lemma OtherTokens(c: Pool.Conf, ownerId: string, s: State, a: Action, tokens: seq<Token>, oks: seq<seq<bool>>)
    requires TokensHeld(s, tokens, oks) && Enabled(c, s, a) && !a.Proc? && !a.Runner?
    ensures TokensHeld(Apply(c, ownerId, s, a), tokens, oks)
  {
    var s' := Apply(c, ownerId, s, a);
    OthersAreOutside(c, ownerId, s, a);
    SameRoles(s.pollers, s'.pollers);
    SameTokenKeeps(s, s', tokens, oks);
  }

  /** Any step. */
  lemma AnyTokens(c: Pool.Conf, ownerId: string, s: State, a: Action, tokens: seq<Token>, oks: seq<seq<bool>>)
    requires RefreshOk(s) && LifeOk(s) && TokensHeld(s, tokens, oks) && Enabled(c, s, a)
    ensures TokensHeld(Apply(c, ownerId, s, a), tokens + TokensOf(a), oks + OksOf(a))
  {
    assert tokens + [] == tokens && oks + [] == oks;
    match a
    case Proc(x) => ProcTokens(s, x, tokens, oks);
    case Runner(r) => RunnerTokens(s, r, tokens, oks);
    case _ => OtherTokens(c, ownerId, s, a, tokens, oks);
  }

  lemma TokensStep(c: Pool.Conf, ownerId: string, s: State, a: Action, tokens: seq<Token>, oks: seq<seq<bool>>)
    requires c.Valid() && Reachable(c, ownerId, s) && TokensHeld(s, tokens, oks) && Enabled(c, s, a)
    ensures TokensHeld(Apply(c, ownerId, s, a), tokens + TokensOf(a), oks + OksOf(a))
    ensures Reachable(c, ownerId, Apply(c, ownerId, s, a))
  {
    ReachableInv(c, ownerId, s);
    ReachableRefreshOk(c, ownerId, s);
    AnyTokens(c, ownerId, s, a, tokens, oks);
    var _ := Then(c, ownerId, s, a);
  }

  lemma Regroup<T>(x: seq<T>, y: seq<T>, z: seq<T>)
    ensures (x + y) + z == x + (y + z)
  {
  }

  lemma {:induction false} TokensRun(
    c: Pool.Conf, ownerId: string, s: State, acts: seq<Action>, tokens: seq<Token>, oks: seq<seq<bool>>)
    requires c.Valid() && Reachable(c, ownerId, s) && TokensHeld(s, tokens, oks) && IsRun(c, ownerId, s, acts)
    ensures TokensHeld(Exec(c, ownerId, s, acts), tokens + TokensIn(acts), oks + OksIn(acts))
    decreases |acts|
  {
    if acts == [] {
      assert tokens + [] == tokens && oks + [] == oks;
    } else {
      var a, rest := acts[0], acts[1..];
      TokensStep(c, ownerId, s, a, tokens, oks);
      TokensRun(c, ownerId, Apply(c, ownerId, s, a), rest, tokens + TokensOf(a), oks + OksOf(a));
      Regroup(tokens, TokensOf(a), TokensIn(rest));
      Regroup(oks, OksOf(a), OksIn(rest));
    }
  }

  lemma TokensFromStart(c: Pool.Conf, ownerId: string, acts: seq<Action>)
    requires c.Valid() && IsRun(c, ownerId, INIT, acts)
    ensures TokensHeld(Exec(c, ownerId, INIT, acts), TokensIn(acts), OksIn(acts))
  {
    assert IsRun(c, ownerId, INIT, []) && Exec(c, ownerId, INIT, []) == INIT;
    TokensRun(c, ownerId, INIT, acts, [], []);
    assert [] + TokensIn(acts) == TokensIn(acts) && [] + OksIn(acts) == OksIn(acts);
  }

  lemma RolesAreHeld(c: Pool.Conf, ownerId: string, s: State)
    requires Reachable(c, ownerId, s)
    ensures HeldBy(s.pollers, RolesOf(s.pollers))
  {
    ReachableRefreshOk(c, ownerId, s);
    RolesHeld(s.pollers);
  }

  /** At any time outside a refresh, and in any interleaving, the queues polled and
      the credentials held are what all tokens so far make of them, one after the
      other; during a refresh this is so of those before it. */
  lemma HeldAfterTokens(c: Pool.Conf, ownerId: string, acts: seq<Action>)
    requires c.Valid() && IsRun(c, ownerId, INIT, acts)
    ensures TokensHeld(Exec(c, ownerId, INIT, acts), TokensIn(acts), OksIn(acts))
    ensures var s := Exec(c, ownerId, INIT, acts);
      s.proc != ProcCreated && !InRefresh(s) ==>
        HeldBy(s.pollers, AfterTokens(map[], TokensIn(acts), OksIn(acts)))
  {
    TokensFromStart(c, ownerId, acts);
    var s := Exec(c, ownerId, INIT, acts);
    assert Reachable(c, ownerId, s);
    RolesAreHeld(c, ownerId, s);
  }
}
