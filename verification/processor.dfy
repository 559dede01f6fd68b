/** The processor's reconciliation of its pollers with a token. */
module Processors {
  import opened Naming
  import opened Tokens
  import opened Reconciliation
  import opened Pollers

  const DEFAULT_MAX_MESSAGES: int := 10
  const DEFAULT_WAIT_MILLIS: int := 100
  const DEFAULT_VISIBILITY_SECONDS: int := 30
  const MIN_VISIBILITY_SECONDS: int := 15
  const DEFAULT_REFRESH_SECONDS: int := 60

  datatype PollerConf = PollerConf(
    pollingWaitIntervalInMillis: int, visibilityTimeoutInSeconds: int, maxNumberOfMessages: int)

  /** A configuration NewProcessor leaves as it is. */
  predicate Acceptable(conf: PollerConf) {
    && 1 <= conf.maxNumberOfMessages
    && 1 <= conf.pollingWaitIntervalInMillis
    && MIN_VISIBILITY_SECONDS <= conf.visibilityTimeoutInSeconds
  }

  class Processor {
    const conf: PollerConf
    var pollers: map<Url, Poller>
    var successRefreshPeriod: int
    var errorRefreshPeriod: int
    /** Every poller ever created. */
    ghost var registered: set<Poller>

    /** Each poller ever created has been started once; it runs exactly while it
        is the poller of its queue, and has been stopped once otherwise. */
    ghost predicate Valid()
      reads this, registered
    {
      && (forall u | u in pollers :: pollers[u] in registered && pollers[u].url == u)
      && (forall p | p in registered :: p.Valid() && p.starts == 1)
      && (forall p | p in registered :: p.maxNumberOfMessages == conf.maxNumberOfMessages)
      && (forall p | p in registered :: p.isRunning <==> p.url in pollers && pollers[p.url] == p)
    }

    ghost function RolesHeld(): Roles
      reads this, pollers.Values
    {
      map u | u in pollers :: pollers[u].role
    }

    /** NewProcessor: fields that are out of range get their defaults. */
    constructor (conf: PollerConf)
      ensures Valid() && pollers == map[] && registered == {}
      ensures Acceptable(this.conf)
      ensures Acceptable(conf) ==> this.conf == conf
      ensures this.conf.maxNumberOfMessages ==
        if conf.maxNumberOfMessages <= 0 then 10 else conf.maxNumberOfMessages
      ensures this.conf.pollingWaitIntervalInMillis ==
        if conf.pollingWaitIntervalInMillis <= 0 then 100 else conf.pollingWaitIntervalInMillis
      ensures this.conf.visibilityTimeoutInSeconds ==
        if conf.visibilityTimeoutInSeconds < 15 then 30 else conf.visibilityTimeoutInSeconds
      ensures successRefreshPeriod == errorRefreshPeriod == 60
    {
      var p := conf;
      if p.maxNumberOfMessages <= 0 {
        p := p.(maxNumberOfMessages := DEFAULT_MAX_MESSAGES);
      }
      if p.pollingWaitIntervalInMillis <= 0 {
        p := p.(pollingWaitIntervalInMillis := DEFAULT_WAIT_MILLIS);
      }
      if p.visibilityTimeoutInSeconds < MIN_VISIBILITY_SECONDS {
        p := p.(visibilityTimeoutInSeconds := DEFAULT_VISIBILITY_SECONDS);
      }
      this.conf := p;
      successRefreshPeriod, errorRefreshPeriod := DEFAULT_REFRESH_SECONDS, DEFAULT_REFRESH_SECONDS;
      pollers, registered := map[], {};
    }

    /** addPoller followed by the start of the poller. */
    method AddPoller(p: Properties)
      requires Valid() && p.url !in pollers
      modifies `pollers, `registered
      ensures Valid() && p.url in pollers && fresh(pollers[p.url])
      ensures pollers == old(pollers)[p.url := pollers[p.url]]
      ensures pollers[p.url].role == p.assumeRoleResult
      ensures registered == old(registered) + {pollers[p.url]}
    {
      var poller := new Poller(p, conf.maxNumberOfMessages);
      pollers := pollers[p.url := poller];
      registered := registered + {poller};
      var _ := poller.Start();
    }

    method AbsorbEntry(p: Properties, sessionOk: bool)
      requires Valid()
      modifies `pollers, `registered, registered
      ensures Valid()
      ensures RolesHeld() == Absorb(old(RolesHeld()), p, sessionOk)
      ensures forall u | u in old(pollers) :: u in pollers && pollers[u] == old(pollers[u])
      ensures old(registered) <= registered && fresh(registered - old(registered))
      ensures forall q | q in registered - old(registered) :: q.isRunning
      ensures forall u | u in pollers && u !in old(pollers) :: fresh(pollers[u])
    {
      if p.url in pollers {
        var poller := pollers[p.url];
        if p.assumeRoleResult != NO_ROLE {
          var _ := poller.RefreshClient(p.assumeRoleResult, sessionOk);
        }
      } else if sessionOk {
        AddPoller(p);
      }
    }

    method RemovePoller(u: Url)
      requires Valid() && u in pollers
      modifies `pollers, `registered, registered
      ensures Valid()
      ensures pollers == old(pollers) - {u}
      ensures registered == old(registered)
      ensures forall q | q in registered :: q.role == old(q.role)
      ensures !old(pollers[u]).isRunning && old(pollers[u]).stops == 1
    {
      var poller := pollers[u];
      pollers := pollers - {u};
      var _ := poller.Stop();
    }

    /** The pollers of queues that were not polled before. */
    static ghost function NewPollers(before: map<Url, Poller>, after: map<Url, Poller>): set<Poller> {
      set u | u in after && u !in before :: after[u]
    }

    /** The loop over the token.  What is left of the keys are the queues polled
        before that the token does not name. */
    method AbsorbToken(list: seq<Properties>, sessionOk: seq<bool>) returns (pollerKeys: set<Url>)
      requires Valid() && |list| == |sessionOk|
      modifies `pollers, `registered, registered
      ensures Valid()
      ensures RolesHeld() == AbsorbAll(old(RolesHeld()), list, sessionOk)
      ensures forall u | u in old(pollers) :: u in pollers && pollers[u] == old(pollers[u])
      ensures old(registered) <= registered && fresh(registered - old(registered))
      ensures registered == old(registered) + NewPollers(old(pollers), pollers)
      ensures fresh(NewPollers(old(pollers), pollers))
      ensures forall u :: u in pollerKeys <==> u in old(pollers) && !Named(list, u)
    {
      pollerKeys := pollers.Keys;
      for i := 0 to |list|
        invariant Valid()
        invariant RolesHeld() == AbsorbAll(old(RolesHeld()), list[..i], sessionOk[..i])
        invariant forall u | u in old(pollers) :: u in pollers && pollers[u] == old(pollers[u])
        invariant old(registered) <= registered && fresh(registered - old(registered))
        invariant forall q | q in registered - old(registered) :: q.isRunning
        invariant forall u | u in pollers && u !in old(pollers) :: fresh(pollers[u])
        invariant forall u :: u in pollerKeys <==> u in old(pollers) && !Named(list[..i], u)
      {
        var known := list[i].url in pollers;
        AbsorbEntry(list[i], sessionOk[i]);
        if known {
          pollerKeys := pollerKeys - {list[i].url};
        }
        OccursSnoc(list, UrlOf, i);
        AbsorbSnoc(old(RolesHeld()), list, sessionOk, i);
      }
      assert list[..|list|] == list && sessionOk[..|list|] == sessionOk;
    }

    method RemovePollers(keys: set<Url>)
      requires Valid() && keys <= pollers.Keys
      modifies `pollers, `registered, registered
      ensures Valid()
      ensures pollers == old(pollers) - keys
      ensures registered == old(registered)
      ensures RolesHeld() == old(RolesHeld()) - keys
    {
      var left := keys;
      while left != {}
        invariant Valid() && left <= keys
        invariant pollers == old(pollers) - (keys - left)
        invariant registered == old(registered)
        invariant forall q | q in registered :: q.role == old(q.role)
        decreases left
      {
        var u :| u in left;
        RemovePoller(u);
        left := left - {u};
      }
    }

    method Reconcile(list: seq<Properties>, sessionOk: seq<bool>)
      requires Valid() && |list| == |sessionOk|
      modifies `pollers, `registered, registered
      ensures Valid()
      ensures RolesHeld() == AfterToken(old(RolesHeld()), list, sessionOk)
      ensures forall u | u in pollers && u in old(pollers) :: pollers[u] == old(pollers[u])
      ensures registered == old(registered) + NewPollers(old(pollers), pollers)
      ensures fresh(NewPollers(old(pollers), pollers))
    {
      ghost var before := RolesHeld();
      var pollerKeys := AbsorbToken(list, sessionOk);
      ghost var all := pollers;
      RemovePollers(pollerKeys);
      assert NewPollers(old(pollers), pollers) == NewPollers(old(pollers), all);
      AfterRemoval(before, list, sessionOk, pollerKeys);
    }

    /** refreshPollers.  Afterwards the queues named by the token that were polled
        before or could be added are polled, the others are not; a queue that
        stays keeps its poller, a new one has a new poller, and no poller beyond
        those has been created.  By Valid, each removed poller has been stopped
        once and each new one started once. */
    method RefreshPollers(token: Token, sessionOk: seq<bool>)
      requires Valid() && |token.queuePropertiesList| == |sessionOk|
      modifies this, registered
      ensures Valid()
      ensures RolesHeld() == AfterToken(old(RolesHeld()), token.queuePropertiesList, sessionOk)
      ensures forall u | u in pollers && u in old(pollers) :: pollers[u] == old(pollers[u])
      ensures registered == old(registered) + NewPollers(old(pollers), pollers)
      ensures fresh(NewPollers(old(pollers), pollers))
      ensures token.queuePropertiesList == [] ==>
        successRefreshPeriod == old(successRefreshPeriod) && errorRefreshPeriod == old(errorRefreshPeriod)
      ensures token.queuePropertiesList != [] ==>
        && successRefreshPeriod == token.queuePropertiesList[0].successRefreshPeriod
        && errorRefreshPeriod == token.queuePropertiesList[0].errorRefreshPeriod
    {
      var list := token.queuePropertiesList;
      Reconcile(list, sessionOk);
      if |list| != 0 {
        successRefreshPeriod := list[0].successRefreshPeriod;
        errorRefreshPeriod := list[0].errorRefreshPeriod;
      }
    }

    /** A token that names exactly the queues polled starts and stops nothing,
        whatever becomes of the refreshes. */
    method RefreshSameQueues(token: Token, sessionOk: seq<bool>)
      requires Valid() && |token.queuePropertiesList| == |sessionOk|
      requires forall u :: u in pollers <==> Named(token.queuePropertiesList, u)
      modifies this, registered
      ensures Valid()
      ensures pollers == old(pollers) && registered == old(registered)
    {
      ghost var before := RolesHeld();
      RefreshPollers(token, sessionOk);
      forall u
        ensures u in pollers <==> u in old(pollers)
      {
        ReconciledKeys(before, token.queuePropertiesList, sessionOk, u);
        assert u in pollers <==> u in RolesHeld();
      }
      assert NewPollers(old(pollers), pollers) == {};
    }

    /** The refreshes of a run of the processor, one token after the other. */
    method RefreshAll(tokens: seq<Token>, sessionOk: seq<seq<bool>>)
      requires Valid() && TokensOk(tokens, sessionOk)
      modifies this, registered
      ensures Valid()
      ensures old(registered) <= registered && fresh(registered - old(registered))
      ensures RolesHeld() == AfterTokens(old(RolesHeld()), tokens, sessionOk)
    {
      for i := 0 to |tokens|
        invariant Valid()
        invariant old(registered) <= registered && fresh(registered - old(registered))
        invariant RolesHeld() == AfterTokens(old(RolesHeld()), tokens[..i], sessionOk[..i])
      {
        RefreshPollers(tokens[i], sessionOk[i]);
        assert tokens[..i + 1][..i] == tokens[..i] && sessionOk[..i + 1][..i] == sessionOk[..i];
      }
      assert tokens[..|tokens|] == tokens && sessionOk[..|tokens|] == sessionOk;
    }
  }
}
