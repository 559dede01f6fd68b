/** The git repositories: their download, and the lock under which actions are
    executed from their files. */
module Repositories {
  import opened Naming

  type Url = string

  datatype Options = Options(url: Url, privateKeyFilepath: string, passphrase: string)

  /** What cloning yields, if it is attempted. */
  datatype Clone = CloneFailed | Cloned(path: string)

  class Repository {
    const path: string
    const options: Options

    constructor (path: string, options: Options)
      ensures this.path == path && this.options == options
    {
      this.path := path;
      this.options := options;
    }
  }

  function UrlOf(options: Options): Url {
    options.url
  }

  predicate Named(list: seq<Options>, u: Url) {
    Occurs(list, UrlOf, u)
  }

  /** Entry k is the first one for its repository. */
  predicate First(list: seq<Options>, k: nat)
    requires k < |list|
  {
    !Named(list[..k], list[k].url)
  }

  /** The repositories that are named but not known, in the order of their first
      entries. */
  function Missing(known: set<Url>, list: seq<Options>): seq<Url> {
    if list == [] then []
    else
      var before := Missing(known, list[..|list| - 1]);
      var u := list[|list| - 1].url;
      if u in known || u in before then before else before + [u]
  }

  lemma {:induction false} MissingOnce(known: set<Url>, list: seq<Options>, u: Url)
    ensures multiset(Missing(known, list))[u] == if Named(list, u) && u !in known then 1 else 0
  {
    if list != [] {
      var n := |list| - 1;
      MissingOnce(known, list[..n], u);
      OccursSnoc(list, UrlOf, n);
      assert list[..n + 1] == list;
    }
  }

  // ------------------------------------------- the map after some entries

  ghost predicate Kept(before: map<Url, Repository>, now: map<Url, Repository>) {
    forall u | u in before :: u in now && now[u] == before[u]
  }

  ghost predicate KeysAre(before: map<Url, Repository>, now: map<Url, Repository>, list: seq<Options>) {
    forall u :: u in now <==> u in before || Named(list, u)
  }

  ghost predicate FirstCloned(now: map<Url, Repository>, list: seq<Options>, clones: seq<Clone>, k: nat)
    requires k < |list| && k < |clones|
  {
    list[k].url in now && now[list[k].url].options == list[k] && Cloned(now[list[k].url].path) == clones[k]
  }

  ghost predicate FirstsCloned(before: map<Url, Repository>, now: map<Url, Repository>, list: seq<Options>,
      clones: seq<Clone>, n: nat)
    requires n <= |list| && n <= |clones|
  {
    forall k | 0 <= k < n && First(list, k) && list[k].url !in before :: FirstCloned(now, list, clones, k)
  }

  /** What Download does to the map when it succeeds. */
  ghost predicate Downloaded(now: map<Url, Repository>, next: map<Url, Repository>, options: Options, clone: Clone) {
    if options.url in now then next == now
    else
      && options.url in next && next == now[options.url := next[options.url]]
      && next[options.url].options == options && Cloned(next[options.url].path) == clone
  }

  lemma KeysStep(before: map<Url, Repository>, now: map<Url, Repository>, next: map<Url, Repository>,
                 list: seq<Options>, clone: Clone, i: nat)
    requires i < |list| && KeysAre(before, now, list[..i]) && Downloaded(now, next, list[i], clone)
    ensures KeysAre(before, next, list[..i + 1])
  {
    OccursSnoc(list, UrlOf, i);
  }

  lemma FirstsStep(before: map<Url, Repository>, now: map<Url, Repository>, next: map<Url, Repository>,
                   list: seq<Options>, clones: seq<Clone>, i: nat)
    requires i < |list| == |clones| && KeysAre(before, now, list[..i])
    requires FirstsCloned(before, now, list, clones, i) && Downloaded(now, next, list[i], clones[i])
    ensures FirstsCloned(before, next, list, clones, i + 1)
  {
    forall k | 0 <= k < i + 1 && First(list, k) && list[k].url !in before
      ensures FirstCloned(next, list, clones, k)
    {
      if k < i {
        assert FirstCloned(now, list, clones, k);
      } else {
        assert list[i].url !in now;
      }
    }
  }

  /** The step from entry i to the next one, for the repositories cloned. */
  lemma MissingStep(before: map<Url, Repository>, now: map<Url, Repository>, list: seq<Options>, i: nat)
    requires i < |list| && KeysAre(before, now, list[..i])
    ensures Missing(before.Keys, list[..i + 1]) ==
            Missing(before.Keys, list[..i]) + if list[i].url in now then [] else [list[i].url]
  {
    assert list[..i + 1][..i] == list[..i];
    MissingOnce(before.Keys, list[..i], list[i].url);
  }

  /** Each repository that is new has been cloned exactly once, and no other. */
  ghost predicate ClonedOnce(before: map<Url, Repository>, now: map<Url, Repository>, cloned: seq<Url>) {
    forall u :: multiset(cloned)[u] == if u in now && u !in before then 1 else 0
  }

  lemma MissingEach(before: map<Url, Repository>, now: map<Url, Repository>, list: seq<Options>,
      were: seq<Url>, are: seq<Url>)
    requires KeysAre(before, now, list) && are == were + Missing(before.Keys, list)
    ensures ClonedOnce(before, now, are[|were|..])
  {
    assert are[|were|..] == Missing(before.Keys, list);
    forall u
      ensures multiset(are[|were|..])[u] == if u in now && u !in before then 1 else 0
    {
      MissingOnce(before.Keys, list, u);
    }
  }

  class RepositoryMap {
    var entries: map<Url, Repository>
    /** The repositories cloned so far. */
    ghost var cloned: seq<Url>

    constructor ()
      ensures entries == map[] && cloned == []
    {
      entries, cloned := map[], [];
    }

    /** A repository that is already there is not cloned again. */
    method Download(options: Options, clone: Clone) returns (failed: bool)
      modifies this
      ensures failed <==> options.url !in old(entries) && clone.CloneFailed?
      ensures failed || options.url in old(entries) ==> entries == old(entries) && cloned == old(cloned)
      ensures !failed && options.url !in old(entries) ==>
        && options.url in entries && entries == old(entries)[options.url := entries[options.url]]
        && fresh(entries[options.url])
        && entries[options.url].options == options && entries[options.url].path == clone.path
        && cloned == old(cloned) + [options.url]
    {
      if options.url !in entries {
        if clone.CloneFailed? {
          return true;
        }
        var repository := new Repository(clone.path, options);
        entries := entries[options.url := repository];
        cloned := cloned + [options.url];
      }
      return false;
    }

    /** DownloadAll fails exactly if some repository that is not there yet cannot
        be cloned for its first entry.  What is there before stays; each of the
        others is cloned once, up to the failure, in the order of the first
        entries. */
    method DownloadAll(list: seq<Options>, clones: seq<Clone>) returns (failed: bool, n: nat)
      requires |list| == |clones|
      modifies this
      ensures n <= |list| && (failed <==> n < |list|)
      ensures failed ==> list[n].url !in old(entries) && First(list, n) && clones[n].CloneFailed?
      ensures Kept(old(entries), entries)
      ensures KeysAre(old(entries), entries, list[..n])
      ensures FirstsCloned(old(entries), entries, list, clones, n)
      ensures cloned == old(cloned) + Missing(old(entries).Keys, list[..n])
      ensures ClonedOnce(old(entries), entries, cloned[|old(cloned)|..])
    {
      for i := 0 to |list|
        invariant Kept(old(entries), entries)
        invariant KeysAre(old(entries), entries, list[..i])
        invariant FirstsCloned(old(entries), entries, list, clones, i)
        invariant cloned == old(cloned) + Missing(old(entries).Keys, list[..i])
      {
        ghost var now := entries;
        MissingStep(old(entries), now, list, i);
        failed := Download(list[i], clones[i]);
        if failed {
          MissingEach(old(entries), entries, list[..i], old(cloned), cloned);
          return true, i;
        }
        KeysStep(old(entries), now, entries, list, clones[i], i);
        FirstsStep(old(entries), now, entries, list, clones, i);
      }
      assert list[..|list|] == list;
      MissingEach(old(entries), entries, list, old(cloned), cloned);
      return false, |list|;
    }
  }
}

/** The read-write lock of a repository.  An action is executed under the read
    lock, a pull and the removal happen under the write lock. */
module RepositoryLock {

  datatype Pc =
    | WantsToExecute
    | Executing(firstSeen: nat)
    | Executed(firstSeen: nat, lastSeen: nat)
    | WantsToWrite
    | Writing
    | Written

  /** version counts the changes made to the files; a pull makes any number. */
  datatype State = State(version: nat, calls: seq<Pc>)

  const INIT := State(0, [])

  datatype Action =
    | CallExecute | CallWrite
    | RLock(c: nat) | RUnlock(c: nat)
    | Lock(c: nat) | Change(c: nat) | Unlock(c: nat)

  predicate NoneWriting(s: State) {
    forall c | 0 <= c < |s.calls| :: !s.calls[c].Writing?
  }

  predicate NoneExecuting(s: State) {
    forall c | 0 <= c < |s.calls| :: !s.calls[c].Executing?
  }

  predicate Enabled(s: State, a: Action) {
    match a
    case CallExecute => true
    case CallWrite => true
    case RLock(c) => c < |s.calls| && s.calls[c] == WantsToExecute && NoneWriting(s)
    case RUnlock(c) => c < |s.calls| && s.calls[c].Executing?
    case Lock(c) => c < |s.calls| && s.calls[c] == WantsToWrite && NoneWriting(s) && NoneExecuting(s)
    case Change(c) => c < |s.calls| && s.calls[c] == Writing
    case Unlock(c) => c < |s.calls| && s.calls[c] == Writing
  }

  function Apply(s: State, a: Action): State
    requires Enabled(s, a)
  {
    match a
    case CallExecute => s.(calls := s.calls + [WantsToExecute])
    case CallWrite => s.(calls := s.calls + [WantsToWrite])
    case RLock(c) => s.(calls := s.calls[c := Executing(s.version)])
    case RUnlock(c) => s.(calls := s.calls[c := Executed(s.calls[c].firstSeen, s.version)])
    case Lock(c) => s.(calls := s.calls[c := Writing])
    case Change(c) => s.(version := s.version + 1)
    case Unlock(c) => s.(calls := s.calls[c := Written])
  }

  predicate IsRun(s: State, acts: seq<Action>)
    decreases |acts|
  {
    acts == [] || (Enabled(s, acts[0]) && IsRun(Apply(s, acts[0]), acts[1..]))
  }

  function Exec(s: State, acts: seq<Action>): State
    requires IsRun(s, acts)
    decreases |acts|
  {
    if acts == [] then s else Exec(Apply(s, acts[0]), acts[1..])
  }

  predicate PcOk(s: State, p: Pc) {
    match p
    case Executing(v) => v == s.version && NoneWriting(s)
    case Executed(v, w) => v == w
    case _ => true
  }

  predicate Inv(s: State) {
    && (forall c | 0 <= c < |s.calls| :: PcOk(s, s.calls[c]))
    && (forall c, d | 0 <= c < |s.calls| && 0 <= d < |s.calls| && s.calls[c].Writing? && s.calls[d].Writing? :: c == d)
  }

  lemma InvStep(s: State, a: Action)
    requires Inv(s) && Enabled(s, a)
    ensures Inv(Apply(s, a))
  {
    var s' := Apply(s, a);
    forall d | 0 <= d < |s'.calls|
      ensures PcOk(s', s'.calls[d])
    {
      assert d < |s.calls| ==> PcOk(s, s.calls[d]);
    }
  }

  lemma {:induction false} InvRun(s: State, acts: seq<Action>)
    requires Inv(s) && IsRun(s, acts)
    ensures Inv(Exec(s, acts))
    decreases |acts|
  {
    if acts != [] {
      InvStep(s, acts[0]);
      InvRun(Apply(s, acts[0]), acts[1..]);
    }
  }

  /** Whatever pulls and removals are attempted meanwhile, an action sees the
      same files from its beginning to its end, and no two writers overlap. */
  lemma ExecutionSeesOneVersion(acts: seq<Action>, c: nat)
    requires IsRun(INIT, acts) && c < |Exec(INIT, acts).calls|
    ensures match Exec(INIT, acts).calls[c]
            case Executing(v) => v == Exec(INIT, acts).version
            case Executed(v, w) => v == w
            case Writing => NoneExecuting(Exec(INIT, acts))
            case _ => true
  {
    InvRun(INIT, acts);
    var s := Exec(INIT, acts);
    assert PcOk(s, s.calls[c]);
    forall d | 0 <= d < |s.calls| && s.calls[d].Executing?
      ensures !s.calls[c].Writing?
    {
      assert PcOk(s, s.calls[d]);
    }
  }

  lemma Follow(s: State, a: Action, rest: seq<Action>) returns (acts: seq<Action>)
    requires Enabled(s, a) && IsRun(Apply(s, a), rest)
    ensures IsRun(s, acts) && Exec(s, acts) == Exec(Apply(s, a), rest)
  {
    acts := [a] + rest;
    assert acts[1..] == rest;
  }

  /** Once the lock is free, a pull can change the files, and an action executed
      after it sees the change. */
  lemma PullIsSeen(s: State) returns (acts: seq<Action>)
    requires NoneWriting(s) && NoneExecuting(s)
    ensures IsRun(s, acts)
    ensures Exec(s, acts).calls == s.calls + [Written, Executed(s.version + 1, s.version + 1)]
  {
    var w, e := |s.calls|, |s.calls| + 1;
    var s1 := Apply(s, CallWrite);
    var s2 := Apply(s1, Lock(w));
    var s3 := Apply(s2, Change(w));
    var s4 := Apply(s3, Unlock(w));
    var s5 := Apply(s4, CallExecute);
    var s6 := Apply(s5, RLock(e));
    acts := Follow(s6, RUnlock(e), []);
    acts := Follow(s5, RLock(e), acts);
    acts := Follow(s4, CallExecute, acts);
    acts := Follow(s3, Unlock(w), acts);
    acts := Follow(s2, Change(w), acts);
    acts := Follow(s1, Lock(w), acts);
    acts := Follow(s, CallWrite, acts);
  }
}
