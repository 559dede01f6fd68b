/** The SQS provider: queue calls through the installed client and refreshes that
    replace it, under two locks. */
module SqsProviders {
  import opened Tokens

  /** A client is identified by the order of installation. */
  datatype Client = Client(id: nat, builtFrom: AssumeRoleResult)

  datatype Pc =
    // a call of ChangeMessageVisibility, DeleteMessage or ReceiveMessage
    | ApiWaiting
    | ApiReading              // read lock held, client not yet called
    | ApiReported(id: nat)    // the client answered that its token has expired
    | ApiUnlocking
    | ApiReturned
    // a call of RefreshClient whose session could be created
    | RefreshWaiting(role: AssumeRoleResult)
    | RefreshLocked(role: AssumeRoleResult) // write lock held
    | RefreshInstalled(role: AssumeRoleResult) // client replaced, properties not yet
    | RefreshStored           // both replaced
    | RefreshBetween          // write lock released, flag not yet cleared
    | RefreshReturned
    | RefreshFailed           // no session

  /** The rest is history: what the clients installed so far were built from, the
      clients that answered with an expiry, those for which the flag was set, and
      those for which it was set outside every window, that is while no refresh
      was between replacing the client and clearing the flag. */
  datatype State = State(
    client: Client, stored: AssumeRoleResult, isTokenExpired: bool, calls: seq<Pc>,
    installed: seq<AssumeRoleResult>, reported: set<nat>, flagged: set<nat>, outside: set<nat>)

  /** A provider as NewSqsProvider returns it. */
  function Init(role: AssumeRoleResult): State {
    State(Client(0, role), role, false, [], [role], {}, {}, {})
  }

  datatype Action =
    | CallApi
    | CallRefresh(role: AssumeRoleResult, sessionOk: bool)
    | RLock(c: nat)
    | CallClient(c: nat, expired: bool)
    | SetExpired(c: nat)
    | RUnlock(c: nat)
    | Lock(c: nat)
    | InstallClient(c: nat)
    | StoreProperties(c: nat)
    | Unlock(c: nat)
    | ClearExpired(c: nat)

  predicate Reading(p: Pc) {
    p.ApiReading? || p.ApiReported? || p.ApiUnlocking?
  }

  predicate Writing(p: Pc) {
    p.RefreshLocked? || p.RefreshInstalled? || p.RefreshStored?
  }

  predicate InWindow(p: Pc) {
    p.RefreshInstalled? || p.RefreshStored? || p.RefreshBetween?
  }

  predicate NoneWriting(s: State) {
    forall c | 0 <= c < |s.calls| :: !Writing(s.calls[c])
  }

  predicate NoneReading(s: State) {
    forall c | 0 <= c < |s.calls| :: !Reading(s.calls[c])
  }

  /** No refresh is between its two assignments. */
  predicate NoneHalfWay(s: State) {
    forall c | 0 <= c < |s.calls| :: !s.calls[c].RefreshInstalled?
  }

  predicate WindowOpen(s: State) {
    exists c | 0 <= c < |s.calls| :: InWindow(s.calls[c])
  }

  predicate Pending(s: State, id: nat) {
    exists c | 0 <= c < |s.calls| :: s.calls[c] == ApiReported(id)
  }

  predicate Enabled(s: State, a: Action) {
    match a
    case CallApi => true
    case CallRefresh(_, _) => true
    case RLock(c) => c < |s.calls| && s.calls[c] == ApiWaiting && NoneWriting(s)
    case CallClient(c, _) => c < |s.calls| && s.calls[c] == ApiReading
    case SetExpired(c) => c < |s.calls| && s.calls[c].ApiReported?
    case RUnlock(c) => c < |s.calls| && s.calls[c] == ApiUnlocking
    case Lock(c) => c < |s.calls| && s.calls[c].RefreshWaiting? && NoneWriting(s) && NoneReading(s)
    case InstallClient(c) => c < |s.calls| && s.calls[c].RefreshLocked?
    case StoreProperties(c) => c < |s.calls| && s.calls[c].RefreshInstalled?
    case Unlock(c) => c < |s.calls| && s.calls[c] == RefreshStored
    case ClearExpired(c) => c < |s.calls| && s.calls[c] == RefreshBetween
  }

  function Apply(s: State, a: Action): State
    requires Enabled(s, a)
  {
    match a
    case CallApi => s.(calls := s.calls + [ApiWaiting])
    case CallRefresh(role, ok) => s.(calls := s.calls + [if ok then RefreshWaiting(role) else RefreshFailed])
    case RLock(c) => s.(calls := s.calls[c := ApiReading])
    case CallClient(c, expired) =>
      if expired
      then s.(calls := s.calls[c := ApiReported(s.client.id)], reported := s.reported + {s.client.id})
      else s.(calls := s.calls[c := ApiUnlocking])
    case SetExpired(c) =>
      s.(calls := s.calls[c := ApiUnlocking], isTokenExpired := true,
         flagged := s.flagged + {s.calls[c].id},
         outside := if WindowOpen(s) then s.outside else s.outside + {s.calls[c].id})
    case RUnlock(c) => s.(calls := s.calls[c := ApiReturned])
    case Lock(c) => s.(calls := s.calls[c := RefreshLocked(s.calls[c].role)])
    case InstallClient(c) =>
      s.(calls := s.calls[c := RefreshInstalled(s.calls[c].role)], client := Client(s.client.id + 1, s.calls[c].role),
         installed := s.installed + [s.calls[c].role])
    case StoreProperties(c) => s.(calls := s.calls[c := RefreshStored], stored := s.calls[c].role)
    case Unlock(c) => s.(calls := s.calls[c := RefreshBetween])
    case ClearExpired(c) => s.(calls := s.calls[c := RefreshReturned], isTokenExpired := false)
  }

  predicate IsRun(s: State, acts: seq<Action>)
    decreases |acts|
  {
    acts == [] || (Enabled(s, acts[0]) && IsRun(Apply(s, acts[0]), acts[1..]))
  }

  function Exec(s: State, acts: seq<Action>): State
    requires IsRun(s, acts)
    decreases |acts|
  {
    if acts == [] then s else Exec(Apply(s, acts[0]), acts[1..])
  }

  ghost predicate Reachable(role: AssumeRoleResult, s: State) {
    exists acts :: IsRun(Init(role), acts) && Exec(Init(role), acts) == s
  }

  // -------------------------------------------------------------- invariant

  ghost predicate LocksOk(s: State) {
    forall c, d | 0 <= c < |s.calls| && 0 <= d < |s.calls| && c != d && Writing(s.calls[c]) ::
      !Writing(s.calls[d]) && !Reading(s.calls[d])
  }

  ghost predicate ClientOk(s: State) {
    && |s.installed| == s.client.id + 1 && s.installed[s.client.id] == s.client.builtFrom
    && (forall c | 0 <= c < |s.calls| && s.calls[c].RefreshInstalled? :: s.client.builtFrom == s.calls[c].role)
    && (NoneHalfWay(s) ==> s.client.builtFrom == s.stored)
  }

  ghost predicate HistoryOk(s: State) {
    && (forall id | id in s.reported :: id <= s.client.id)
    && s.flagged <= s.reported
    && (forall c | 0 <= c < |s.calls| && s.calls[c].ApiReported? ::
          s.calls[c].id == s.client.id && s.client.id in s.reported)
    && (s.client.id in s.reported ==> s.client.id in s.flagged || Pending(s, s.client.id))
  }

  ghost predicate ExpiryOk(s: State) {
    && s.outside <= s.flagged
    && (WindowOpen(s) ==> s.client.id !in s.outside)
    && (!WindowOpen(s) ==> (s.isTokenExpired <==> s.client.id in s.outside))
  }

  ghost predicate Inv(s: State) {
    LocksOk(s) && ClientOk(s) && HistoryOk(s) && ExpiryOk(s)
  }

  lemma LocksStep(s: State, a: Action)
    requires LocksOk(s) && Enabled(s, a)
    ensures LocksOk(Apply(s, a))
  {
  }

  lemma CallStays(s: State, a: Action, d: nat)
    requires Enabled(s, a) && d < |s.calls|
    requires !a.CallApi? && !a.CallRefresh? ==> d != a.c
    ensures Apply(s, a).calls[d] == s.calls[d]
  {
  }

  lemma ClientStep(s: State, a: Action)
    requires LocksOk(s) && ClientOk(s) && Enabled(s, a)
    ensures ClientOk(Apply(s, a))
  {
    var s' := Apply(s, a);
    if a.InstallClient? {
      assert s'.calls[a.c].RefreshInstalled?;
    }
    if NoneHalfWay(s') && !a.StoreProperties? {
      forall d | 0 <= d < |s.calls|
        ensures !s.calls[d].RefreshInstalled?
      {
        assert !s'.calls[d].RefreshInstalled?;
      }
      assert NoneHalfWay(s);
    }
  }

  /** The window stays open until ClearExpired closes it. */
  lemma WindowStep(s: State, a: Action)
    requires Enabled(s, a)
    ensures WindowOpen(s) && !a.ClearExpired? ==> WindowOpen(Apply(s, a))
    ensures a.InstallClient? ==> WindowOpen(Apply(s, a))
    ensures !WindowOpen(s) && !a.InstallClient? ==> !WindowOpen(Apply(s, a))
  {
    var s' := Apply(s, a);
    if a.InstallClient? {
      assert InWindow(s'.calls[a.c]);
    }
    if WindowOpen(s) {
      var d :| 0 <= d < |s.calls| && InWindow(s.calls[d]);
      assert InWindow(s'.calls[d]) || a.ClearExpired?;
    } else if WindowOpen(s') {
      var d :| 0 <= d < |s'.calls| && InWindow(s'.calls[d]);
      assert d < |s.calls| ==> !InWindow(s.calls[d]);
    }
  }

  lemma PendingStep(s: State, a: Action, id: nat)
    requires Enabled(s, a) && Pending(s, id)
    ensures (a.SetExpired? && s.calls[a.c] == ApiReported(id)) || Pending(Apply(s, a), id)
  {
    var d :| 0 <= d < |s.calls| && s.calls[d] == ApiReported(id);
    if !(a.SetExpired? && s.calls[a.c] == ApiReported(id)) {
      assert Apply(s, a).calls[d] == ApiReported(id);
    }
  }

  lemma HistoryStep(s: State, a: Action)
    requires LocksOk(s) && HistoryOk(s) && Enabled(s, a)
    ensures HistoryOk(Apply(s, a))
  {
    if Pending(s, s.client.id) {
      PendingStep(s, a, s.client.id);
    }
    if a.CallClient? && a.expired {
      assert Apply(s, a).calls[a.c] == ApiReported(s.client.id);
    }
  }

  lemma ExpiryStep(s: State, a: Action)
    requires LocksOk(s) && HistoryOk(s) && ExpiryOk(s) && Enabled(s, a)
    ensures ExpiryOk(Apply(s, a))
  {
    WindowStep(s, a);
    if a.ClearExpired? {
      assert InWindow(s.calls[a.c]);
    }
  }

  lemma {:induction false} InvRun(s: State, acts: seq<Action>)
    requires Inv(s) && IsRun(s, acts)
    ensures Inv(Exec(s, acts))
    decreases |acts|
  {
    if acts != [] {
      LocksStep(s, acts[0]);
      ClientStep(s, acts[0]);
      HistoryStep(s, acts[0]);
      ExpiryStep(s, acts[0]);
      InvRun(Apply(s, acts[0]), acts[1..]);
    }
  }

  lemma ReachableInv(role: AssumeRoleResult, s: State)
    requires Reachable(role, s)
    ensures Inv(s)
  {
    var acts :| IsRun(Init(role), acts) && Exec(Init(role), acts) == s;
    InvRun(Init(role), acts);
  }

  // --------------------------------------------------------------- theorems

  /** Whoever holds the read lock sees a client and properties that belong
      together; so does anyone while no refresh is between its two assignments. */
  lemma ClientMatchesProperties(role: AssumeRoleResult, s: State)
    requires Reachable(role, s)
    ensures NoneHalfWay(s) ==> s.client.builtFrom == s.stored
    ensures !NoneReading(s) ==> s.client.builtFrom == s.stored
  {
    ReachableInv(role, s);
    if !NoneReading(s) {
      var d :| 0 <= d < |s.calls| && Reading(s.calls[d]);
      forall c | 0 <= c < |s.calls|
        ensures !Writing(s.calls[c])
      {
      }
    }
  }

  /** An expiry that is flagged is never that of a client replaced since, once
      the refreshes in progress have cleared the flag. */
  lemma NoStaleExpiry(role: AssumeRoleResult, s: State)
    requires Reachable(role, s) && !WindowOpen(s)
    ensures s.isTokenExpired ==> s.client.id in s.reported
  {
    ReachableInv(role, s);
  }

  /** The flag is set exactly if an expiry of the installed client was flagged
      outside every window. */
  lemma FlaggedIffOutside(role: AssumeRoleResult, s: State)
    requires Reachable(role, s) && !WindowOpen(s)
    ensures s.isTokenExpired <==> s.client.id in s.outside
  {
    ReachableInv(role, s);
  }

  /** With no expiry still to be flagged, one that the installed client reported
      is forgotten exactly if each was flagged inside a window. */
  lemma ForgottenIffInside(role: AssumeRoleResult, s: State)
    requires Reachable(role, s) && !WindowOpen(s) && !Pending(s, s.client.id)
    ensures s.client.id in s.reported && !s.isTokenExpired <==> s.client.id in s.flagged - s.outside
  {
    ReachableInv(role, s);
  }

  lemma Snoc(s: State, acts: seq<Action>, a: Action)
    requires IsRun(s, acts) && Enabled(Exec(s, acts), a)
    ensures IsRun(s, acts + [a]) && Exec(s, acts + [a]) == Apply(Exec(s, acts), a)
    decreases |acts|
  {
    if acts == [] {
      assert ([] + [a])[1..] == [];
    } else {
      assert (acts + [a])[1..] == acts[1..] + [a];
      Snoc(Apply(s, acts[0]), acts[1..], a);
    }
  }

  lemma Then(role: AssumeRoleResult, s: State, a: Action) returns (s': State)
    requires Reachable(role, s) && Enabled(s, a)
    ensures s' == Apply(s, a) && Reachable(role, s')
  {
    var acts :| IsRun(Init(role), acts) && Exec(Init(role), acts) == s;
    Snoc(Init(role), acts, a);
    s' := Apply(s, a);
  }

  /** A refresh that holds the lock, and a queue call that waits for it. */
  lemma RefreshHasLock(role: AssumeRoleResult, newRole: AssumeRoleResult) returns (s: State)
    ensures Reachable(role, s)
    ensures s == State(Client(0, role), role, false, [RefreshLocked(newRole), ApiWaiting], [role], {}, {}, {})
  {
    s := Init(role);
    assert IsRun(s, []) && Exec(s, []) == s;
    s := Then(role, s, CallRefresh(newRole, true));
    s := Then(role, s, CallApi);
    s := Then(role, s, Lock(0));
  }

  /** The same refresh when it has installed its client but not yet cleared the
      flag. */
  lemma RefreshHalfDone(role: AssumeRoleResult, newRole: AssumeRoleResult) returns (s: State)
    ensures Reachable(role, s)
    ensures s == State(Client(1, newRole), newRole, false, [RefreshBetween, ApiWaiting], [role, newRole], {}, {}, {})
  {
    s := RefreshHasLock(role, newRole);
    s := Then(role, s, InstallClient(0));
    s := Then(role, s, StoreProperties(0));
    s := Then(role, s, Unlock(0));
  }

  /** An expiry of the new client has been flagged inside the window. */
  lemma ExpiryInWindow(role: AssumeRoleResult, newRole: AssumeRoleResult) returns (s: State)
    ensures Reachable(role, s)
    ensures s == State(Client(1, newRole), newRole, true, [RefreshBetween, ApiUnlocking], [role, newRole], {1}, {1}, {})
  {
    s := RefreshHalfDone(role, newRole);
    s := Then(role, s, RLock(1));
    s := Then(role, s, CallClient(1, true));
    assert InWindow(s.calls[0]);
    s := Then(role, s, SetExpired(1));
  }

  /** An expiry of the new client that falls into the window is forgotten. */
  lemma ErasedExpiry(role: AssumeRoleResult, newRole: AssumeRoleResult) returns (s: State)
    ensures Reachable(role, s) && !WindowOpen(s) && !Pending(s, s.client.id)
    ensures s.client.id in s.reported && !s.isTokenExpired
  {
    s := ExpiryInWindow(role, newRole);
    s := Then(role, s, RUnlock(1));
    s := Then(role, s, ClearExpired(0));
  }

  // ------------------------------------------------------------ the object

  /** The call an action belongs to is not c. */
  predicate ByOther(a: Action, c: nat) {
    a.CallApi? || a.CallRefresh? || a.c != c
  }

  ghost predicate OthersLead(s: State, s': State, c: nat) {
    exists acts :: IsRun(s, acts) && Exec(s, acts) == s' && forall i | 0 <= i < |acts| :: ByOther(acts[i], c)
  }

  function OwnOne(a: Action, c: nat): seq<Action> {
    if ByOther(a, c) then [] else [a]
  }

  /** The actions of call c in a run. */
  function Own(acts: seq<Action>, c: nat): seq<Action> {
    if acts == [] then []
    else OwnOne(acts[0], c) + Own(acts[1..], c)
  }

  /** A run leads from s to s' in which the actions of call c are exactly own. */
  ghost predicate Ran(s: State, s': State, c: nat, own: seq<Action>) {
    exists acts :: IsRun(s, acts) && Exec(s, acts) == s' && Own(acts, c) == own
  }

  lemma Regroup<T>(x: seq<T>, y: seq<T>, z: seq<T>)
    ensures (x + y) + z == x + (y + z)
  {
  }

  lemma {:induction false} OwnSnoc(acts: seq<Action>, a: Action, c: nat)
    ensures Own(acts + [a], c) == Own(acts, c) + OwnOne(a, c)
  {
    if acts == [] {
      assert acts + [a] == [a];
      assert [a][1..] == [];
      assert Own([a], c) == OwnOne(a, c) + [];
    } else {
      assert (acts + [a])[0] == acts[0] && (acts + [a])[1..] == acts[1..] + [a];
      OwnSnoc(acts[1..], a, c);
      Regroup(OwnOne(acts[0], c), Own(acts[1..], c), OwnOne(a, c));
    }
  }

  lemma RanStep(s: State, s': State, c: nat, own: seq<Action>, a: Action)
    requires Ran(s, s', c, own) && Enabled(s', a) && !ByOther(a, c)
    ensures Ran(s, Apply(s', a), c, own + [a])
  {
    var acts :| IsRun(s, acts) && Exec(s, acts) == s' && Own(acts, c) == own;
    Snoc(s, acts, a);
    OwnSnoc(acts, a, c);
  }

  lemma {:induction false} RanRun(s: State, s': State, c: nat, own: seq<Action>, acts: seq<Action>)
    requires Ran(s, s', c, own) && IsRun(s', acts) && forall i | 0 <= i < |acts| :: ByOther(acts[i], c)
    ensures Ran(s, Exec(s', acts), c, own)
    decreases |acts|
  {
    if acts != [] {
      var before :| IsRun(s, before) && Exec(s, before) == s' && Own(before, c) == own;
      Snoc(s, before, acts[0]);
      OwnSnoc(before, acts[0], c);
      assert own + [] == own;
      RanRun(s, Apply(s', acts[0]), c, own, acts[1..]);
    }
  }

  lemma RanSelf(s: State, c: nat)
    ensures Ran(s, s, c, [])
  {
    assert IsRun(s, []) && Exec(s, []) == s && Own([], c) == [];
  }

  /** The beginning of a call. */
  lemma RanBegin(s: State, a: Action, c: nat)
    requires a.CallApi? || a.CallRefresh?
    ensures Ran(s, Apply(s, a), c, [])
  {
    RanSelf(s, c);
    Snoc(s, [], a);
    assert [] + [a] == [a];
    OwnSnoc([], a, c);
  }

  lemma OthersStep(s: State, a: Action, c: nat)
    requires Enabled(s, a) && ByOther(a, c) && c < |s.calls| && LocksOk(s)
    ensures var s' := Apply(s, a);
      && c < |s'.calls| && s'.calls[c] == s.calls[c]
      && (Reading(s.calls[c]) || Writing(s.calls[c]) ==> s'.client == s.client && s'.stored == s.stored)
  {
    CallStays(s, a, c);
  }

  /** Nobody else moves a call; while it holds a lock nobody else replaces the
      client. */
  lemma {:induction false} OthersFrame(s: State, acts: seq<Action>, c: nat)
    requires IsRun(s, acts) && c < |s.calls| && LocksOk(s)
    requires forall i | 0 <= i < |acts| :: ByOther(acts[i], c)
    ensures var s' := Exec(s, acts);
      && c < |s'.calls| && s'.calls[c] == s.calls[c]
      && (Reading(s.calls[c]) || Writing(s.calls[c]) ==> s'.client == s.client && s'.stored == s.stored)
    decreases |acts|
  {
    if acts != [] {
      OthersStep(s, acts[0], c);
      LocksStep(s, acts[0]);
      OthersFrame(Apply(s, acts[0]), acts[1..], c);
    }
  }

  lemma {:induction false} HistoryGrows(s: State, acts: seq<Action>)
    requires IsRun(s, acts)
    ensures s.installed <= Exec(s, acts).installed && s.flagged <= Exec(s, acts).flagged
    decreases |acts|
  {
    if acts != [] {
      HistoryGrows(Apply(s, acts[0]), acts[1..]);
    }
  }

  /** The client with number id exists and was built from role. */
  predicate WasInstalled(installed: seq<AssumeRoleResult>, id: nat, role: AssumeRoleResult) {
    id < |installed| && installed[id] == role
  }

  datatype RefreshOutcome = Failed | Waiting | Refreshed

  class SqsProvider {
    ghost const initial: AssumeRoleResult
    var client: Client
    var queueProperties: Properties
    var isTokenExpired: bool
    // The calls made so far and where they are; the locks are held by some.
    var calls: seq<Pc>
    ghost var installed: seq<AssumeRoleResult>
    ghost var reported: set<nat>
    ghost var flagged: set<nat>
    ghost var outside: set<nat>

    ghost function View(): State
      reads this
    {
      State(client, queueProperties.assumeRoleResult, isTokenExpired, calls, installed, reported, flagged, outside)
    }

    ghost predicate Valid()
      reads this
    {
      Reachable(initial, View())
    }

    /** NewSqsProvider, when a session for the given credentials can be created. */
    constructor (properties: Properties)
      ensures Valid() && View() == Init(properties.assumeRoleResult)
      ensures queueProperties == properties
    {
      initial := properties.assumeRoleResult;
      client := Client(0, properties.assumeRoleResult);
      queueProperties := properties;
      isTokenExpired, calls := false, [];
      installed, reported, flagged, outside := [properties.assumeRoleResult], {}, {}, {};
      new;
      assert IsRun(Init(initial), []) && Exec(Init(initial), []) == View();
    }

    /** Any number of actions of other calls. */
    method Others(ghost c: nat)
      requires Valid() && c < |calls|
      modifies this
      ensures Valid() && OthersLead(old(View()), View(), c)
      ensures queueProperties == old(queueProperties).(assumeRoleResult := queueProperties.assumeRoleResult)
    {
      assert IsRun(View(), []) && Exec(View(), []) == View();
    }

    /** The same between two actions of call c, which has done own since s0. */
    method OthersWhile(ghost c: nat, ghost s0: State, ghost own: seq<Action>)
      requires Valid() && c < |calls| && Ran(s0, View(), c, own)
      modifies this
      ensures Valid() && c < |calls| && calls[c] == old(calls[c])
      ensures Reading(calls[c]) || Writing(calls[c]) ==>
        client == old(client) && queueProperties.assumeRoleResult == old(queueProperties.assumeRoleResult)
      ensures queueProperties == old(queueProperties).(assumeRoleResult := queueProperties.assumeRoleResult)
      ensures old(installed) <= installed && old(flagged) <= flagged
      ensures Ran(s0, View(), c, own)
    {
      ghost var s := View();
      ReachableInv(initial, s);
      Others(c);
      ghost var acts :| IsRun(s, acts) && Exec(s, acts) == View() && forall i | 0 <= i < |acts| :: ByOther(acts[i], c);
      OthersFrame(s, acts, c);
      HistoryGrows(s, acts);
      RanRun(s0, s, c, own, acts);
    }

    method Begin(p: Pc, ghost a: Action) returns (c: nat)
      requires Valid() && (a.CallApi? || a.CallRefresh?)
      requires Apply(View(), a).calls == calls + [p]
      modifies `calls
      ensures Valid() && View() == Apply(old(View()), a)
      ensures c == |old(calls)| && calls == old(calls) + [p]
    {
      ghost var _ := Then(initial, View(), a);
      c := |calls|;
      calls := calls + [p];
    }

    method AcquireLock(c: nat, ghost role: AssumeRoleResult, ghost s0: State, ghost own: seq<Action>)
      requires Ran(s0, View(), c, own)
      requires Valid() && c < |calls| && calls[c] == RefreshWaiting(role) && NoneWriting(View()) && NoneReading(View())
      modifies `calls
      ensures Valid() && View() == Apply(old(View()), Lock(c))
      ensures c < |calls| && calls[c] == RefreshLocked(role)
      ensures Ran(s0, View(), c, own + [Lock(c)])
    {
      RanStep(s0, View(), c, own, Lock(c));
      ghost var _ := Then(initial, View(), Lock(c));
      calls := calls[c := RefreshLocked(calls[c].role)];
    }

    method Install(c: nat, ghost s0: State, ghost own: seq<Action>)
      requires Ran(s0, View(), c, own)
      requires Valid() && c < |calls| && calls[c].RefreshLocked?
      modifies `calls, `client, `installed
      ensures Valid() && View() == Apply(old(View()), InstallClient(c))
      ensures c < |calls| && calls[c] == RefreshInstalled(old(calls[c]).role) && client.builtFrom == calls[c].role
      ensures Ran(s0, View(), c, own + [InstallClient(c)])
    {
      RanStep(s0, View(), c, own, InstallClient(c));
      ghost var _ := Then(initial, View(), InstallClient(c));
      client := Client(client.id + 1, calls[c].role);
      installed := installed + [calls[c].role];
      calls := calls[c := RefreshInstalled(calls[c].role)];
    }

    method Store(c: nat, ghost s0: State, ghost own: seq<Action>)
      requires Ran(s0, View(), c, own)
      requires Valid() && c < |calls| && calls[c].RefreshInstalled?
      modifies `calls, `queueProperties
      ensures Valid() && View() == Apply(old(View()), StoreProperties(c))
      ensures c < |calls| && calls[c] == RefreshStored
      ensures queueProperties == old(queueProperties).(assumeRoleResult := old(calls[c]).role)
      ensures Ran(s0, View(), c, own + [StoreProperties(c)])
    {
      RanStep(s0, View(), c, own, StoreProperties(c));
      ghost var _ := Then(initial, View(), StoreProperties(c));
      queueProperties := queueProperties.(assumeRoleResult := calls[c].role);
      calls := calls[c := RefreshStored];
    }

    method LockAndInstall(c: nat, role: AssumeRoleResult)
      requires Valid() && c < |calls| && calls[c] == RefreshWaiting(role) && NoneWriting(View()) && NoneReading(View())
      modifies this
      ensures Valid() && c < |calls| && calls[c] == RefreshInstalled(role)
      ensures client == Client(old(client.id) + 1, role)
      ensures queueProperties == old(queueProperties).(assumeRoleResult := queueProperties.assumeRoleResult)
      ensures Ran(old(View()), View(), c, [] + [Lock(c)] + [InstallClient(c)])
    {
      ghost var s0 := View();
      RanSelf(s0, c);
      AcquireLock(c, role, s0, []);
      OthersWhile(c, s0, [] + [Lock(c)]);
      Install(c, s0, [] + [Lock(c)]);
    }

    /** The first critical section of RefreshClient: the new client and the
        properties it was built from replace the old ones together. */
    method Replace(c: nat, role: AssumeRoleResult)
      requires Valid() && c < |calls| && calls[c] == RefreshWaiting(role) && NoneWriting(View()) && NoneReading(View())
      modifies this
      ensures Valid() && c < |calls| && calls[c] == RefreshStored
      ensures client.builtFrom == role
      ensures queueProperties == old(queueProperties).(assumeRoleResult := role)
      ensures client.id == old(client.id) + 1 && WasInstalled(installed, client.id, role)
      ensures Ran(old(View()), View(), c, [] + [Lock(c)] + [InstallClient(c)] + [StoreProperties(c)])
    {
      ghost var s0, own := View(), [] + [Lock(c)] + [InstallClient(c)];
      LockAndInstall(c, role);
      OthersWhile(c, s0, own);
      Store(c, s0, own);
      ReachableInv(initial, View());
    }

    method GiveBack(c: nat, ghost s0: State, ghost own: seq<Action>)
      requires Valid() && c < |calls| && calls[c] == RefreshStored && Ran(s0, View(), c, own)
      modifies `calls
      ensures Valid() && c < |calls| && calls[c] == RefreshBetween
      ensures Ran(s0, View(), c, own + [Unlock(c)])
    {
      ghost var _ := Then(initial, View(), Unlock(c));
      RanStep(s0, View(), c, own, Unlock(c));
      calls := calls[c := RefreshBetween];
    }

    method ClearFlag(c: nat, ghost s0: State, ghost own: seq<Action>)
      requires Valid() && c < |calls| && calls[c] == RefreshBetween && Ran(s0, View(), c, own)
      modifies `calls, `isTokenExpired
      ensures Valid() && c < |calls| && calls[c] == RefreshReturned && !isTokenExpired
      ensures Ran(s0, View(), c, own + [ClearExpired(c)])
    {
      ghost var _ := Then(initial, View(), ClearExpired(c));
      RanStep(s0, View(), c, own, ClearExpired(c));
      isTokenExpired := false;
      calls := calls[c := RefreshReturned];
    }

    /** From the end of the first critical section to the end of the second. */
    method Clear(c: nat, ghost s0: State, ghost own: seq<Action>)
      requires Valid() && c < |calls| && calls[c] == RefreshStored && Ran(s0, View(), c, own)
      modifies this
      ensures Valid() && c < |calls| && calls[c] == RefreshReturned && !isTokenExpired
      ensures old(installed) <= installed
      ensures Ran(s0, View(), c, own + [Unlock(c)] + [ClearExpired(c)])
    {
      GiveBack(c, s0, own);
      OthersWhile(c, s0, own + [Unlock(c)]);
      ClearFlag(c, s0, own + [Unlock(c)]);
    }

    /** RefreshClient from the moment at which the lock is free. */
    method FinishRefresh(c: nat, role: AssumeRoleResult)
      requires Valid() && c < |calls| && calls[c] == RefreshWaiting(role) && NoneWriting(View()) && NoneReading(View())
      modifies this
      ensures Valid() && c < |calls| && calls[c] == RefreshReturned && !isTokenExpired
      ensures WasInstalled(installed, old(client.id) + 1, role)
      ensures client.id == old(client.id) + 1 ==> client.builtFrom == role
      ensures Ran(old(View()), View(), c,
                  [Lock(c), InstallClient(c), StoreProperties(c), Unlock(c), ClearExpired(c)])
    {
      ghost var s0 := View();
      ghost var own := [] + [Lock(c)] + [InstallClient(c)] + [StoreProperties(c)];
      Replace(c, role);
      Clear(c, s0, own);
      assert own + [Unlock(c)] + [ClearExpired(c)] ==
             [Lock(c), InstallClient(c), StoreProperties(c), Unlock(c), ClearExpired(c)];
      ReachableInv(initial, View());
    }

    /** RefreshClient, called at any time.  sessionOk: whether a session with the
        new credentials can be created.  If a lock is held when the call comes to
        it, the call is left waiting, for FinishRefresh to take it to its end; if it
        comes to its end, id is the number of the client it has installed. */
    method RefreshClient(role: AssumeRoleResult, sessionOk: bool)
      returns (outcome: RefreshOutcome, c: nat, ghost id: nat)
      requires Valid()
      modifies this
      ensures Valid() && c < |calls|
      ensures outcome == Failed <==> !sessionOk
      ensures outcome == Failed ==>
        && calls[c] == RefreshFailed
        && client == old(client) && queueProperties == old(queueProperties) && isTokenExpired == old(isTokenExpired)
      ensures outcome == Waiting ==>
        calls[c] == RefreshWaiting(role) && !(NoneWriting(View()) && NoneReading(View()))
      ensures outcome == Refreshed ==>
        && calls[c] == RefreshReturned && !isTokenExpired
        && old(client.id) < id && WasInstalled(installed, id, role)
        && (client.id == id ==> client.builtFrom == role)
    {
      ReachableInv(initial, View());
      id := 0;
      c := Begin(if sessionOk then RefreshWaiting(role) else RefreshFailed, CallRefresh(role, sessionOk));
      if !sessionOk {
        return Failed, c, id;
      }
      RanSelf(View(), c);
      OthersWhile(c, View(), []);
      ReachableInv(initial, View());
      if exists d | 0 <= d < |calls| :: Writing(calls[d]) || Reading(calls[d]) {
        return Waiting, c, id;
      }
      id := client.id + 1;
      FinishRefresh(c, role);
      outcome := Refreshed;
    }

    method AcquireReadLock(c: nat, ghost s0: State, ghost own: seq<Action>)
      requires Ran(s0, View(), c, own)
      requires Valid() && c < |calls| && calls[c] == ApiWaiting && NoneWriting(View())
      modifies `calls
      ensures Valid() && View() == Apply(old(View()), RLock(c))
      ensures c < |calls| && calls[c] == ApiReading
      ensures Ran(s0, View(), c, own + [RLock(c)])
    {
      RanStep(s0, View(), c, own, RLock(c));
      ghost var _ := Then(initial, View(), RLock(c));
      calls := calls[c := ApiReading];
    }

    method AskClient(c: nat, expired: bool)
      requires Valid() && c < |calls| && calls[c] == ApiReading
      modifies `calls, `reported
      ensures Valid() && View() == Apply(old(View()), CallClient(c, expired))
      ensures c < |calls| && calls[c] == if expired then ApiReported(client.id) else ApiUnlocking
    {
      ghost var _ := Then(initial, View(), CallClient(c, expired));
      if expired {
        reported := reported + {client.id};
        calls := calls[c := ApiReported(client.id)];
      } else {
        calls := calls[c := ApiUnlocking];
      }
    }

    method CheckExpiration(c: nat)
      requires Valid() && c < |calls| && calls[c] == ApiReported(client.id)
      modifies this
      ensures Valid() && View() == Apply(old(View()), SetExpired(c))
      ensures calls[c] == ApiUnlocking && isTokenExpired && client.id in flagged && client == old(client)
      ensures queueProperties == old(queueProperties)
    {
      ghost var _ := Then(initial, View(), SetExpired(c));
      isTokenExpired := true;
      if !WindowOpen(View()) {
        outside := outside + {client.id};
      }
      flagged := flagged + {client.id};
      calls := calls[c := ApiUnlocking];
    }

    /** The request of a call and the check of its answer; what the call has done
        before, from s0 on, is own. */
    method AskAndCheck(c: nat, expired: bool, ghost s0: State, ghost own: seq<Action>)
      requires Valid() && c < |calls| && calls[c] == ApiReading && Ran(s0, View(), c, own)
      modifies this
      ensures Valid() && c < |calls| && calls[c] == ApiUnlocking
      ensures client == old(client)
      ensures expired ==> isTokenExpired && client.id in flagged
      ensures !expired ==>
        isTokenExpired == old(isTokenExpired) && flagged == old(flagged) && reported == old(reported)
      ensures Ran(s0, View(), c, own + [CallClient(c, expired)] + if expired then [SetExpired(c)] else [])
    {
      ghost var asked := own + [CallClient(c, expired)];
      RanStep(s0, View(), c, own, CallClient(c, expired));
      AskClient(c, expired);
      if expired {
        OthersWhile(c, s0, asked);
        RanStep(s0, View(), c, asked, SetExpired(c));
        CheckExpiration(c);
      } else {
        assert asked + [] == asked;
      }
    }

    method ReleaseReadLock(c: nat)
      requires Valid() && c < |calls| && calls[c] == ApiUnlocking
      modifies `calls
      ensures Valid() && View() == Apply(old(View()), RUnlock(c))
      ensures c < |calls| && calls[c] == ApiReturned
    {
      ghost var _ := Then(initial, View(), RUnlock(c));
      calls := calls[c := ApiReturned];
    }

    /** What a call does that has nothing to wait for. */
    static ghost function CallActions(c: nat, expired: bool): seq<Action> {
      if expired then [RLock(c), CallClient(c, true), SetExpired(c), RUnlock(c)]
      else [RLock(c), CallClient(c, false), RUnlock(c)]
    }

    method EnterCall() returns (c: nat)
      requires Valid() && NoneWriting(View())
      modifies this
      ensures Valid() && c < |calls| && calls[c] == ApiReading
      ensures Ran(old(View()), View(), c, [] + [RLock(c)])
    {
      ghost var s0 := View();
      RanBegin(s0, CallApi, |calls|);
      c := Begin(ApiWaiting, CallApi);
      AcquireReadLock(c, s0, []);
      OthersWhile(c, s0, [] + [RLock(c)]);
    }

    /** A call up to the end of the check. */
    method Ask(expired: bool) returns (c: nat, ghost own: seq<Action>)
      requires Valid() && NoneWriting(View())
      modifies this
      ensures Valid() && c < |calls| && calls[c] == ApiUnlocking
      ensures expired ==> isTokenExpired && client.id in flagged
      ensures own + [RUnlock(c)] == CallActions(c, expired)
      ensures Ran(old(View()), View(), c, own)
    {
      ghost var s0 := View();
      c := EnterCall();
      AskAndCheck(c, expired, s0, [] + [RLock(c)]);
      own := [] + [RLock(c)] + [CallClient(c, expired)] + if expired then [SetExpired(c)] else [];
    }

    /** The rest of it. */
    method Return(c: nat, ghost expired: bool, ghost s0: State, ghost own: seq<Action>)
      requires Valid() && c < |calls| && calls[c] == ApiUnlocking && Ran(s0, View(), c, own)
      requires own + [RUnlock(c)] == CallActions(c, expired)
      modifies this
      ensures Valid() && c < |calls| && calls[c] == ApiReturned
      ensures client == old(client) && old(flagged) <= flagged
      ensures client.builtFrom == queueProperties.assumeRoleResult
      ensures Ran(s0, View(), c, CallActions(c, expired))
    {
      OthersWhile(c, s0, own);
      ClientMatchesProperties(initial, View());
      RanStep(s0, View(), c, own, RUnlock(c));
      ReleaseReadLock(c);
    }

    /** One of the three queue calls, made when no refresh holds the lock; expired
        is whether the client answers that its token has expired.  The flag is
        set, in the state flaggedAt, for the very client that was asked, which stays
        installed until the lock is given back; without an expiry the call sets no
        flag. */
    method CallQueue(expired: bool) returns (c: nat, ghost flaggedAt: State)
      requires Valid() && NoneWriting(View())
      modifies this
      ensures Valid() && c < |calls| && calls[c] == ApiReturned
      ensures Reachable(initial, flaggedAt) && flaggedAt.client == client
      ensures expired ==> flaggedAt.isTokenExpired && client.id in flaggedAt.flagged && client.id in flagged
      ensures client.builtFrom == queueProperties.assumeRoleResult
      ensures Ran(old(View()), View(), c,
                  if expired then [RLock(c), CallClient(c, true), SetExpired(c), RUnlock(c)]
                  else [RLock(c), CallClient(c, false), RUnlock(c)])
    {
      ghost var s0, own := View(), [];
      c, own := Ask(expired);
      flaggedAt := View();
      Return(c, expired, s0, own);
    }
  }
}
