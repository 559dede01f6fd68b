/** What a token makes of the queues that are polled and of their credentials. */
module Reconciliation {
  import opened Naming
  import opened Tokens

  /** The pollers by queue, with the credentials each one holds. */
  type Roles = map<Url, AssumeRoleResult>

  /** One entry of the token: a known queue gets the credentials if there are
      any, an unknown one gets a poller; either fails without a session. */
  function Absorb(m: Roles, p: Properties, sessionOk: bool): Roles {
    if !sessionOk || (p.url in m && p.assumeRoleResult == NO_ROLE) then m else m[p.url := p.assumeRoleResult]
  }

  function AbsorbAll(m: Roles, list: seq<Properties>, sessionOk: seq<bool>): Roles
    requires |list| == |sessionOk|
  {
    if list == [] then m
    else Absorb(AbsorbAll(m, list[..|list| - 1], sessionOk[..|list| - 1]), list[|list| - 1], sessionOk[|list| - 1])
  }

  function UrlOf(p: Properties): Url {
    p.url
  }

  predicate Named(list: seq<Properties>, u: Url) {
    Occurs(list, UrlOf, u)
  }

  function AfterToken(m: Roles, list: seq<Properties>, sessionOk: seq<bool>): Roles
    requires |list| == |sessionOk|
  {
    var a := AbsorbAll(m, list, sessionOk);
    map u | u in a && Named(list, u) :: a[u]
  }

  /** A session for an entry of that queue can be created. */
  predicate Addable(list: seq<Properties>, sessionOk: seq<bool>, u: Url)
    requires |list| == |sessionOk|
  {
    exists i | 0 <= i < |list| :: list[i].url == u && sessionOk[i]
  }

  lemma {:induction false} AbsorbedKeys(m: Roles, list: seq<Properties>, sessionOk: seq<bool>, u: Url)
    requires |list| == |sessionOk|
    ensures u in AbsorbAll(m, list, sessionOk) <==> u in m || Addable(list, sessionOk, u)
  {
    if list != [] {
      var n := |list| - 1;
      AbsorbedKeys(m, list[..n], sessionOk[..n], u);
      if Addable(list, sessionOk, u) {
        var i :| 0 <= i < |list| && list[i].url == u && sessionOk[i];
        assert i < n ==> list[..n][i].url == u && sessionOk[..n][i];
      }
      if Addable(list[..n], sessionOk[..n], u) {
        var i :| 0 <= i < n && list[..n][i].url == u && sessionOk[..n][i];
        assert list[i].url == u && sessionOk[i];
      }
    }
  }

  /** After a token exactly the queues it names that were polled before or could
      be added are polled, for any list with any repetitions and failures. */
  lemma ReconciledKeys(m: Roles, list: seq<Properties>, sessionOk: seq<bool>, u: Url)
    requires |list| == |sessionOk|
    ensures u in AfterToken(m, list, sessionOk) <==>
      && (exists i | 0 <= i < |list| :: list[i].url == u)
      && (u in m || exists i | 0 <= i < |list| :: list[i].url == u && sessionOk[i])
  {
    AbsorbedKeys(m, list, sessionOk, u);
  }

  /** A token with one entry leaves at most the queue of that entry.  A queue that
      was polled keeps its credentials if the entry has none, all their fields being
      empty, or if no session can be created with them. */
  lemma OneEntry(m: Roles, p: Properties, ok: bool)
    ensures AfterToken(m, [p], [ok]) ==
      if p.url in m then
        map[p.url := if !ok || p.assumeRoleResult == AssumeRoleResult("", "", "", 0, "", "")
                     then m[p.url] else p.assumeRoleResult]
      else if ok then map[p.url := p.assumeRoleResult]
      else map[]
  {
    assert [p][..0] == [] && [ok][..0] == [];
    assert AbsorbAll(m, [p], [ok]) == Absorb(m, p, ok);
    assert forall u :: Named([p], u) <==> u == p.url;
  }

  /** Entry i changes the credentials of its queue u, which is polled before. */
  predicate Refreshes(list: seq<Properties>, sessionOk: seq<bool>, u: Url, i: nat)
    requires |list| == |sessionOk| && i < |list|
  {
    list[i].url == u && sessionOk[i] && list[i].assumeRoleResult != NO_ROLE
  }

  /** The last refresh of u in the list, or -1. */
  function LastRefresh(list: seq<Properties>, sessionOk: seq<bool>, u: Url): (k: int)
    requires |list| == |sessionOk|
    ensures -1 <= k < |list|
    ensures 0 <= k ==> Refreshes(list, sessionOk, u, k)
    ensures forall i: nat | k < i < |list| :: !Refreshes(list, sessionOk, u, i)
  {
    if list == [] then -1
    else
      var n := |list| - 1;
      if Refreshes(list, sessionOk, u, n) then n
      else
        var k := LastRefresh(list[..n], sessionOk[..n], u);
        assert forall i: nat | i < n :: Refreshes(list[..n], sessionOk[..n], u, i) == Refreshes(list, sessionOk, u, i);
        k
  }

  /** A surviving poller holds the last credentials sent for its queue with which
      its client could be refreshed; failing that, those it had. */
  lemma {:induction false} CredentialsOfKept(m: Roles, list: seq<Properties>, sessionOk: seq<bool>, u: Url)
    requires |list| == |sessionOk| && u in m
    ensures u in AbsorbAll(m, list, sessionOk)
    ensures var k := LastRefresh(list, sessionOk, u);
      AbsorbAll(m, list, sessionOk)[u] == if 0 <= k then list[k].assumeRoleResult else m[u]
  {
    if list != [] {
      var n := |list| - 1;
      CredentialsOfKept(m, list[..n], sessionOk[..n], u);
    }
  }

  /** f is the entry that creates the poller of u. */
  ghost predicate FirstAdd(list: seq<Properties>, sessionOk: seq<bool>, u: Url, f: nat)
    requires |list| == |sessionOk|
  {
    && f < |list| && list[f].url == u && sessionOk[f]
    && !Addable(list[..f], sessionOk[..f], u)
  }

  /** A new poller holds the credentials it was created with unless a later entry
      for the same queue refreshed them. */
  lemma {:induction false} CredentialsOfNew(m: Roles, list: seq<Properties>, sessionOk: seq<bool>, u: Url, f: nat)
    requires |list| == |sessionOk| && u !in m && FirstAdd(list, sessionOk, u, f)
    ensures u in AbsorbAll(m, list, sessionOk)
    ensures var k := LastRefresh(list, sessionOk, u);
      AbsorbAll(m, list, sessionOk)[u] == list[if f < k then k else f].assumeRoleResult
  {
    var n := |list| - 1;
    if f == n {
      AbsorbedKeys(m, list[..n], sessionOk[..n], u);
    } else {
      assert list[..n][..f] == list[..f] && sessionOk[..n][..f] == sessionOk[..f];
      CredentialsOfNew(m, list[..n], sessionOk[..n], u, f);
    }
  }

  /** A token repeated after all its queues could be added changes no queue. */
  lemma RepeatedToken(m: Roles, list: seq<Properties>, sessionOk: seq<bool>, again: seq<bool>)
    requires |list| == |sessionOk| == |again|
    requires forall u | Named(list, u) :: u in m || Addable(list, sessionOk, u)
    ensures var once := AfterToken(m, list, sessionOk);
      AfterToken(once, list, again).Keys == once.Keys
  {
    var once := AfterToken(m, list, sessionOk);
    forall u
      ensures u in AfterToken(once, list, again) <==> u in once
    {
      ReconciledKeys(m, list, sessionOk, u);
      ReconciledKeys(once, list, again, u);
    }
  }

  /** Removing the queues polled before and no longer named. */
  lemma AfterRemoval(m: Roles, list: seq<Properties>, sessionOk: seq<bool>, keys: set<Url>)
    requires |list| == |sessionOk|
    requires forall u :: u in keys <==> u in m && !Named(list, u)
    ensures AbsorbAll(m, list, sessionOk) - keys == AfterToken(m, list, sessionOk)
  {
    var a := AbsorbAll(m, list, sessionOk);
    forall u
      ensures u in a && u !in keys <==> u in a && Named(list, u)
    {
      AbsorbedKeys(m, list, sessionOk, u);
    }
  }

  lemma AbsorbSnoc(m: Roles, list: seq<Properties>, sessionOk: seq<bool>, i: nat)
    requires i < |list| == |sessionOk|
    ensures AbsorbAll(m, list[..i + 1], sessionOk[..i + 1]) ==
            Absorb(AbsorbAll(m, list[..i], sessionOk[..i]), list[i], sessionOk[i])
  {
    assert list[..i + 1][..i] == list[..i] && sessionOk[..i + 1][..i] == sessionOk[..i];
  }

  predicate TokensOk(tokens: seq<Token>, sessionOk: seq<seq<bool>>) {
    && |tokens| == |sessionOk|
    && forall i | 0 <= i < |tokens| :: |tokens[i].queuePropertiesList| == |sessionOk[i]|
  }

  function AfterTokens(m: Roles, tokens: seq<Token>, sessionOk: seq<seq<bool>>): Roles
    requires TokensOk(tokens, sessionOk)
  {
    if tokens == [] then m
    else
      var n := |tokens| - 1;
      AfterToken(AfterTokens(m, tokens[..n], sessionOk[..n]), tokens[n].queuePropertiesList, sessionOk[n])
  }
}
