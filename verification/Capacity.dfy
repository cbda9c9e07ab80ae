/**
 Admission by counting instances, with the check and the insertion as separate steps of concurrent
 creations.  The Docker backend holds one lock per sandbox over both, the Kubernetes backend one lock
 for all creations; `Locking` says which.
 */
module Capacity {
  import opened Counting

  type Name = nat
  type Tid = nat

  /** Non-positive limits, and a user limit above the global one, are refused at start-up. */
  datatype Limits = Limits(maxInstances: nat, maxPerUser: nat) {
    predicate Valid() {
      0 < maxPerUser <= maxInstances
    }
  }

  datatype Verdict = Admitted | GlobalFull(limit: nat) | UserFull(limit: nat)

  /** `owners` has one entry per instance found, dying and unstarted ones included. */
  function CheckCapacity(limits: Limits, owners: seq<Name>, uid: Name): (v: Verdict)
    ensures v.Admitted? <==> |owners| < limits.maxInstances && multiset(owners)[uid] < limits.maxPerUser
    ensures v.UserFull? ==> |owners| < limits.maxInstances
  {
    if |owners| >= limits.maxInstances then GlobalFull(limits.maxInstances)
    else if multiset(owners)[uid] >= limits.maxPerUser then UserFull(limits.maxPerUser)
    else Admitted
  }

  datatype Locking = PerSandbox | AllCreations

  datatype Creation = Checking(id: Name, uid: Name) | Checked(id: Name, uid: Name)

  /** `live` maps the instances to their users; `creating` holds the creations inside their lock. */
  datatype State = State(live: map<Name, Name>, creating: map<Tid, Creation>)

  datatype Action =
    | Enter(tid: Tid, id: Name, uid: Name)
    | Check(tid: Tid, owners: seq<Name>)
    | Insert(tid: Tid)
    | Fail(tid: Tid)
    | Delete(id: Name)

  function Owned(live: map<Name, Name>, uid: Name): set<Name> {
    set id | id in live && live[id] == uid
  }

  /** The creations that have passed the check and not yet inserted. */
  function Pending(creating: map<Tid, Creation>): set<Tid> {
    set t | t in creating && creating[t].Checked?
  }

  function PendingOf(creating: map<Tid, Creation>, uid: Name): set<Tid> {
    set t | t in creating && creating[t].Checked? && creating[t].uid == uid
  }

  function CreatingOf(creating: map<Tid, Creation>, uid: Name): set<Tid> {
    set t | t in creating && creating[t].uid == uid
  }

  /** The list enumerates the owners of all live instances, in any order. */
  ghost predicate Lists(owners: seq<Name>, live: map<Name, Name>) {
    && |owners| == |live|
    && forall u :: multiset(owners)[u] == |Owned(live, u)|
  }

  predicate LockFree(locking: Locking, creating: map<Tid, Creation>, id: Name) {
    match locking
    case PerSandbox => forall t :: t in creating ==> creating[t].id != id
    case AllCreations => creating == map[]
  }

  ghost predicate Enabled(locking: Locking, s: State, a: Action) {
    match a
    case Enter(t, id, _) => t !in s.creating && LockFree(locking, s.creating, id)
    case Check(t, owners) => t in s.creating && s.creating[t].Checking? && Lists(owners, s.live)
    case Insert(t) => t in s.creating && s.creating[t].Checked? && s.creating[t].id !in s.live
    case Fail(t) => t in s.creating
    case Delete(id) => true
  }

  ghost function After(locking: Locking, limits: Limits, s: State, a: Action): State
    requires Enabled(locking, s, a)
  {
    match a
    case Enter(t, id, uid) => s.(creating := s.creating[t := Checking(id, uid)])
    case Check(t, owners) =>
      var c := s.creating[t];
      if c.id !in s.live && CheckCapacity(limits, owners, c.uid).Admitted?
      then s.(creating := s.creating[t := Checked(c.id, c.uid)])
      else s.(creating := s.creating - {t})
    case Insert(t) =>
      var c := s.creating[t];
      State(s.live[c.id := c.uid], s.creating - {t})
    case Fail(t) => s.(creating := s.creating - {t})
    case Delete(id) => s.(live := s.live - {id})
  }

  ghost predicate IsRun(locking: Locking, limits: Limits, states: seq<State>, actions: seq<Action>) {
    && |states| == |actions| + 1
    && forall k {:trigger actions[k]} :: 0 <= k < |actions| ==>
         Enabled(locking, states[k], actions[k]) && states[k + 1] == After(locking, limits, states[k], actions[k])
  }

  // ---- The bound ------------------------------------------------------------------------------------

  ghost predicate WithinGlobal(limits: Limits, s: State, k: nat) {
    |s.live| + |Pending(s.creating)| <= limits.maxInstances - 1 + k
  }

  ghost predicate WithinUser(limits: Limits, s: State, uid: Name, k: nat) {
    |Owned(s.live, uid)| + |PendingOf(s.creating, uid)| <= limits.maxPerUser - 1 + k
  }

  lemma {:induction false} AdmittedBelowLimits(limits: Limits, live: map<Name, Name>, owners: seq<Name>, uid: Name)
    requires Lists(owners, live)
    ensures CheckCapacity(limits, owners, uid).Admitted? <==>
      |live| < limits.maxInstances && |Owned(live, uid)| < limits.maxPerUser
  {
    assert multiset(owners)[uid] == |Owned(live, uid)|;
  }

  /** An action on one creation leaves the others as they were. */
  predicate MovesOne(before: map<Tid, Creation>, after: map<Tid, Creation>, t: Tid) {
    forall u | u in before.Keys + after.Keys && u != t :: u in before && u in after && before[u] == after[u]
  }

  lemma {:induction false} ActionMovesOne(locking: Locking, limits: Limits, s: State, a: Action)
    requires Enabled(locking, s, a)
    ensures a.Delete? ==> After(locking, limits, s, a).creating == s.creating
    ensures !a.Delete? ==> MovesOne(s.creating, After(locking, limits, s, a).creating, a.tid)
  {
  }

  lemma {:induction false} PendingMoves(before: map<Tid, Creation>, after: map<Tid, Creation>, t: Tid)
    requires MovesOne(before, after, t)
    ensures |Pending(after)| == |Pending(before)|
      - (if t in Pending(before) then 1 else 0) + (if t in Pending(after) then 1 else 0)
    ensures |Pending(after)| <= |after|
  {
    SameButOne(Pending(before), Pending(after), t);
    SubsetCount(Pending(after), after.Keys);
  }

  lemma {:induction false} PendingOfMoves(before: map<Tid, Creation>, after: map<Tid, Creation>, t: Tid, uid: Name)
    requires MovesOne(before, after, t)
    ensures |PendingOf(after, uid)| == |PendingOf(before, uid)|
      - (if t in PendingOf(before, uid) then 1 else 0) + (if t in PendingOf(after, uid) then 1 else 0)
    ensures |PendingOf(after, uid)| <= |CreatingOf(after, uid)|
  {
    SameButOne(PendingOf(before, uid), PendingOf(after, uid), t);
    SubsetCount(PendingOf(after, uid), CreatingOf(after, uid));
  }

  lemma {:induction false} ActionKeepsGlobal(locking: Locking, limits: Limits, s: State, a: Action, k: nat)
    requires Enabled(locking, s, a) && WithinGlobal(limits, s, k)
    requires |After(locking, limits, s, a).creating| <= k
    ensures WithinGlobal(limits, After(locking, limits, s, a), k)
  {
    var s' := After(locking, limits, s, a);
    ActionMovesOne(locking, limits, s, a);
    if a.Check? { AdmittedBelowLimits(limits, s.live, a.owners, s.creating[a.tid].uid); }
    hide Lists, LockFree, CheckCapacity, MovesOne;
    if a.Delete? {
      SubsetCount(s'.live.Keys, s.live.Keys);
    } else {
      PendingMoves(s.creating, s'.creating, a.tid);
    }
  }

  lemma {:induction false} ActionKeepsUser(locking: Locking, limits: Limits, s: State, a: Action, uid: Name, k: nat)
    requires Enabled(locking, s, a) && WithinUser(limits, s, uid, k)
    requires |CreatingOf(After(locking, limits, s, a).creating, uid)| <= k
    ensures WithinUser(limits, After(locking, limits, s, a), uid, k)
  {
    var s' := After(locking, limits, s, a);
    ActionMovesOne(locking, limits, s, a);
    if a.Check? { AdmittedBelowLimits(limits, s.live, a.owners, s.creating[a.tid].uid); }
    hide Lists, LockFree, CheckCapacity, MovesOne;
    if a.Delete? {
      SubsetCount(Owned(s'.live, uid), Owned(s.live, uid));
    } else {
      PendingOfMoves(s.creating, s'.creating, a.tid, uid);
      if a.Insert? {
        SameButOne(Owned(s.live, uid), Owned(s'.live, uid), s.creating[a.tid].id);
      }
    }
  }

  /** With at most k creations at once, the instances never exceed the limit by more than k - 1. */
  lemma {:induction false} CapacityBound(
      locking: Locking, limits: Limits, states: seq<State>, actions: seq<Action>, k: nat, i: nat)
    requires IsRun(locking, limits, states, actions) && i < |states|
    requires states[0].creating == map[] && |states[0].live| <= limits.maxInstances - 1 + k
    requires forall j :: 0 <= j < |states| ==> |states[j].creating| <= k
    ensures |states[i].live| + |Pending(states[i].creating)| <= limits.maxInstances - 1 + k
  {
    if i == 0 {
      assert Pending(states[0].creating) == {};
    } else {
      CapacityBound(locking, limits, states, actions, k, i - 1);
      assert Enabled(locking, states[i - 1], actions[i - 1]);
      ActionKeepsGlobal(locking, limits, states[i - 1], actions[i - 1], k);
    }
  }

  /** The same bound for one user, by the number of that user's creations at once. */
  lemma {:induction false} UserCapacityBound(
      locking: Locking, limits: Limits, states: seq<State>, actions: seq<Action>, uid: Name, k: nat, i: nat)
    requires IsRun(locking, limits, states, actions) && i < |states|
    requires states[0].creating == map[] && |Owned(states[0].live, uid)| <= limits.maxPerUser - 1 + k
    requires forall j :: 0 <= j < |states| ==> |CreatingOf(states[j].creating, uid)| <= k
    ensures |Owned(states[i].live, uid)| + |PendingOf(states[i].creating, uid)| <= limits.maxPerUser - 1 + k
  {
    if i == 0 {
      assert PendingOf(states[0].creating, uid) == {};
    } else {
      UserCapacityBound(locking, limits, states, actions, uid, k, i - 1);
      assert Enabled(locking, states[i - 1], actions[i - 1]);
      ActionKeepsUser(locking, limits, states[i - 1], actions[i - 1], uid, k);
    }
  }

  /** The lock over all creations admits one at a time. */
  lemma {:induction false} OneAtATime(limits: Limits, states: seq<State>, actions: seq<Action>, i: nat)
    requires IsRun(AllCreations, limits, states, actions) && i < |states|
    requires states[0].creating == map[]
    ensures |states[i].creating| <= 1
  {
    if i > 0 {
      OneAtATime(limits, states, actions, i - 1);
      var before, after, a := states[i - 1].creating, states[i].creating, actions[i - 1];
      assert Enabled(AllCreations, states[i - 1], a);
      if !a.Delete? {
        SameButOne(before.Keys, after.Keys, a.tid);
        if a.tid in before { SubsetCount({a.tid}, before.Keys); }
      }
    }
  }

  /** Under one lock for all creations the limits hold in every state, for every user. */
  lemma {:induction false} LockedCapacityIsExact(limits: Limits, states: seq<State>, actions: seq<Action>, uid: Name, i: nat)
    requires IsRun(AllCreations, limits, states, actions) && i < |states| && limits.Valid()
    requires states[0].creating == map[]
    requires |states[0].live| <= limits.maxInstances && |Owned(states[0].live, uid)| <= limits.maxPerUser
    ensures |states[i].live| <= limits.maxInstances
    ensures |Owned(states[i].live, uid)| <= limits.maxPerUser
  {
    forall j | 0 <= j < |states|
      ensures |states[j].creating| <= 1 && |CreatingOf(states[j].creating, uid)| <= 1
    {
      OneAtATime(limits, states, actions, j);
      SubsetCount(CreatingOf(states[j].creating, uid), states[j].creating.Keys);
    }
    CapacityBound(AllCreations, limits, states, actions, 1, i);
    UserCapacityBound(AllCreations, limits, states, actions, uid, 1, i);
  }

  // ---- What is live and what is being created --------------------------------------------------------

  /** The creation inserts the instance, for this user. */
  predicate PutsIn(s: State, a: Action, id: Name, uid: Name) {
    a.Insert? && a.tid in s.creating && s.creating[a.tid].id == id && s.creating[a.tid].uid == uid
  }

  predicate IsLive(s: State, id: Name, uid: Name) {
    id in s.live && s.live[id] == uid
  }

  /** The instance was inserted, or there at the start, and has not been deleted since. */
  ghost predicate LiveSince(states: seq<State>, actions: seq<Action>, k: nat, id: Name, uid: Name)
    requires k <= |actions| && k < |states|
  {
    || (IsLive(states[0], id, uid) && forall i :: 0 <= i < k ==> actions[i] != Delete(id))
    || exists j :: 0 <= j < k && PutsIn(states[j], actions[j], id, uid) && forall i :: j < i < k ==> actions[i] != Delete(id)
  }

  lemma {:induction false} LiveAfter(locking: Locking, limits: Limits, s: State, a: Action, id: Name, uid: Name)
    requires Enabled(locking, s, a)
    ensures IsLive(After(locking, limits, s, a), id, uid) <==>
              PutsIn(s, a, id, uid) || (IsLive(s, id, uid) && a != Delete(id))
  {
    hide Lists, LockFree, CheckCapacity;
  }

  lemma {:induction false} LiveOneMore(states: seq<State>, actions: seq<Action>, n: nat, id: Name, uid: Name)
    requires n < |actions| && n + 1 < |states|
    ensures LiveSince(states, actions, n + 1, id, uid) <==>
              PutsIn(states[n], actions[n], id, uid)
              || (LiveSince(states, actions, n, id, uid) && actions[n] != Delete(id))
  {
    hide PutsIn, IsLive;
    if LiveSince(states, actions, n, id, uid) && actions[n] != Delete(id) {
      if j :| 0 <= j < n && PutsIn(states[j], actions[j], id, uid) && forall i :: j < i < n ==> actions[i] != Delete(id) {
        assert forall i :: j < i < n + 1 ==> actions[i] != Delete(id);
      }
    }
  }

  /** In every run an instance is live, for a user, exactly if it has been inserted for the user and not deleted since. */
  lemma {:induction false} LiveIff(
      locking: Locking, limits: Limits, states: seq<State>, actions: seq<Action>, k: nat, id: Name, uid: Name)
    requires IsRun(locking, limits, states, actions) && k < |states|
    ensures IsLive(states[k], id, uid) <==> LiveSince(states, actions, k, id, uid)
  {
    if k > 0 {
      hide LiveSince, IsLive, PutsIn, Enabled, After;
      LiveIff(locking, limits, states, actions, k - 1, id, uid);
      assert Enabled(locking, states[k - 1], actions[k - 1]);
      LiveAfter(locking, limits, states[k - 1], actions[k - 1], id, uid);
      LiveOneMore(states, actions, k - 1, id, uid);
    }
  }

  /** The creation is over: it has inserted, given up, or found the instance there or a limit reached. */
  predicate EndsCreation(limits: Limits, s: State, a: Action, t: Tid) {
    && (a.Insert? || a.Fail? || a.Check?) && a.tid == t
    && (a.Check? ==>
          t in s.creating
          && (|| s.creating[t].id in s.live || |s.live| >= limits.maxInstances
              || |Owned(s.live, s.creating[t].uid)| >= limits.maxPerUser))
  }

  predicate IsCreating(s: State, t: Tid, id: Name, uid: Name) {
    t in s.creating && s.creating[t].id == id && s.creating[t].uid == uid
  }

  /** The creation has entered for this instance and user, and is not over. */
  ghost predicate EnteredSince(
    limits: Limits, states: seq<State>, actions: seq<Action>, k: nat, t: Tid, id: Name, uid: Name)
    requires k <= |actions| && k < |states|
  {
    exists j :: 0 <= j < k && actions[j] == Enter(t, id, uid)
                && forall i :: j < i < k ==> !EndsCreation(limits, states[i], actions[i], t)
  }

  lemma {:induction false} CreatingAfter(
      locking: Locking, limits: Limits, s: State, a: Action, t: Tid, id: Name, uid: Name)
    requires Enabled(locking, s, a)
    ensures IsCreating(After(locking, limits, s, a), t, id, uid) <==>
              a == Enter(t, id, uid) || (IsCreating(s, t, id, uid) && !EndsCreation(limits, s, a, t))
  {
    if a.Check? { AdmittedBelowLimits(limits, s.live, a.owners, s.creating[a.tid].uid); }
    hide Lists, LockFree, CheckCapacity, Owned;
  }

  lemma {:induction false} EnteredOneMore(
      limits: Limits, states: seq<State>, actions: seq<Action>, n: nat, t: Tid, id: Name, uid: Name)
    requires n < |actions| && n + 1 < |states|
    ensures EnteredSince(limits, states, actions, n + 1, t, id, uid) <==>
              actions[n] == Enter(t, id, uid)
              || (EnteredSince(limits, states, actions, n, t, id, uid) && !EndsCreation(limits, states[n], actions[n], t))
  {
    hide EndsCreation;
    if EnteredSince(limits, states, actions, n, t, id, uid) && !EndsCreation(limits, states[n], actions[n], t) {
      var j :| 0 <= j < n && actions[j] == Enter(t, id, uid)
               && forall i :: j < i < n ==> !EndsCreation(limits, states[i], actions[i], t);
      assert forall i :: j < i < n + 1 ==> !EndsCreation(limits, states[i], actions[i], t);
    }
  }

  /** In every run a creation holds its lock exactly from its entry until it is over; and it can be, at any time. */
  lemma {:induction false} CreatingIff(
      locking: Locking, limits: Limits, states: seq<State>, actions: seq<Action>, k: nat, t: Tid, id: Name, uid: Name)
    requires IsRun(locking, limits, states, actions) && k < |states| && states[0].creating == map[]
    ensures IsCreating(states[k], t, id, uid) <==> EnteredSince(limits, states, actions, k, t, id, uid)
    ensures IsCreating(states[k], t, id, uid) ==>
              Enabled(locking, states[k], Fail(t)) && t !in After(locking, limits, states[k], Fail(t)).creating
  {
    hide EnteredSince, EndsCreation, Enabled, After, IsCreating;
    if k == 0 {
      NothingEntered(limits, states, actions, t, id, uid);
    } else {
      CreatingIff(locking, limits, states, actions, k - 1, t, id, uid);
      assert Enabled(locking, states[k - 1], actions[k - 1]);
      CreatingAfter(locking, limits, states[k - 1], actions[k - 1], t, id, uid);
      EnteredOneMore(limits, states, actions, k - 1, t, id, uid);
    }
    if IsCreating(states[k], t, id, uid) {
      CreationCanFail(locking, limits, states[k], t, id, uid);
    }
  }

  lemma {:induction false} NothingEntered(
      limits: Limits, states: seq<State>, actions: seq<Action>, t: Tid, id: Name, uid: Name)
    requires |states| > 0 && states[0].creating == map[]
    ensures !EnteredSince(limits, states, actions, 0, t, id, uid) && !IsCreating(states[0], t, id, uid)
  {
  }

  lemma {:induction false} CreationCanFail(locking: Locking, limits: Limits, s: State, t: Tid, id: Name, uid: Name)
    requires IsCreating(s, t, id, uid)
    ensures Enabled(locking, s, Fail(t)) && t !in After(locking, limits, s, Fail(t)).creating
  {
  }

  // ---- The bound is reached -------------------------------------------------------------------------

  datatype Request = Request(id: Name, uid: Name)

  /** Distinct sandboxes not yet there, each of which the check would admit now. */
  ghost predicate AllAdmissible(limits: Limits, live: map<Name, Name>, requests: seq<Request>) {
    && |live| < limits.maxInstances
    && (forall i :: 0 <= i < |requests| ==>
          requests[i].id !in live && |Owned(live, requests[i].uid)| < limits.maxPerUser)
    && (forall i, j | 0 <= i < j < |requests| :: requests[i].id != requests[j].id)
  }

  function Entered(requests: seq<Request>, checked: nat, from: nat, to: nat): map<Tid, Creation>
    requires from <= to <= |requests|
  {
    map t | from <= t < to ::
      if t < checked then Checked(requests[t].id, requests[t].uid) else Checking(requests[t].id, requests[t].uid)
  }

  function Inserted(live: map<Name, Name>, requests: seq<Request>, to: nat): map<Name, Name>
    requires to <= |requests|
  {
    if to == 0 then live else Inserted(live, requests, to - 1)[requests[to - 1].id := requests[to - 1].uid]
  }

  /** A listing of the owners exists whatever is live. */
  lemma {:induction false} SomeListing(live: map<Name, Name>) returns (owners: seq<Name>)
    ensures Lists(owners, live)
    decreases |live|
  {
    if live == map[] {
      owners := [];
      forall u ensures Owned(live, u) == {} {
      }
    } else {
      var id :| id in live;
      var rest := live - {id};
      var others := SomeListing(rest);
      owners := [live[id]] + others;
      assert live.Keys == rest.Keys + {id};
      forall u ensures multiset(owners)[u] == |Owned(live, u)| {
        SameButOne(Owned(rest, u), Owned(live, u), id);
      }
    }
  }

  lemma {:induction false} InsertedKeys(live: map<Name, Name>, requests: seq<Request>, to: nat, i: nat)
    requires to <= |requests| && i < |requests|
    requires forall i, j | 0 <= i < j < |requests| :: requests[i].id != requests[j].id
    requires forall i :: 0 <= i < |requests| ==> requests[i].id !in live
    ensures requests[i].id in Inserted(live, requests, to) <==> i < to
    ensures |Inserted(live, requests, to)| == |live| + to
  {
    if to > 0 {
      InsertedKeys(live, requests, to - 1, i);
      InsertedKeys(live, requests, to - 1, to - 1);
    }
  }

  lemma {:induction false} OwnedOneMore(live: map<Name, Name>, id: Name, uid: Name)
    requires id !in live
    ensures |Owned(live[id := uid], uid)| == |Owned(live, uid)| + 1
  {
    SameButOne(Owned(live, uid), Owned(live[id := uid], uid), id);
  }

  lemma {:induction false} InsertedOwned(live: map<Name, Name>, requests: seq<Request>, to: nat, uid: Name)
    requires to <= |requests|
    requires forall i, j | 0 <= i < j < |requests| :: requests[i].id != requests[j].id
    requires forall i :: 0 <= i < |requests| ==> requests[i].id !in live && requests[i].uid == uid
    ensures |Owned(Inserted(live, requests, to), uid)| == |Owned(live, uid)| + to
  {
    hide Owned;
    if to > 0 {
      InsertedOwned(live, requests, to - 1, uid);
      InsertedKeys(live, requests, to - 1, to - 1);
      OwnedOneMore(Inserted(live, requests, to - 1), requests[to - 1].id, uid);
    }
  }

  /** The state while all of them enter, then all check, then all insert. */
  function Overrun(live: map<Name, Name>, requests: seq<Request>, step: nat): State
    requires step <= 3 * |requests|
  {
    var n := |requests|;
    if step <= n then State(live, Entered(requests, 0, 0, step))
    else if step <= 2 * n then State(live, Entered(requests, step - n, 0, n))
    else State(Inserted(live, requests, step - 2 * n), Entered(requests, n, step - 2 * n, n))
  }

  lemma {:induction false} OverrunStep(limits: Limits, live: map<Name, Name>, requests: seq<Request>, step: nat) returns (a: Action)
    requires AllAdmissible(limits, live, requests) && step < 3 * |requests|
    ensures Enabled(PerSandbox, Overrun(live, requests, step), a)
    ensures Overrun(live, requests, step + 1) == After(PerSandbox, limits, Overrun(live, requests, step), a)
  {
    hide Enabled, After, Entered, AllAdmissible;
    var n := |requests|;
    if step < n {
      a := EnterStep(limits, live, requests, step);
    } else if step < 2 * n {
      a := CheckStep(limits, live, requests, step - n);
    } else {
      a := InsertStep(limits, live, requests, step - 2 * n);
    }
  }

  lemma {:induction false} EnterStep(limits: Limits, live: map<Name, Name>, requests: seq<Request>, t: nat) returns (a: Action)
    requires AllAdmissible(limits, live, requests) && t < |requests|
    ensures
      var s := State(live, Entered(requests, 0, 0, t));
      Enabled(PerSandbox, s, a) && After(PerSandbox, limits, s, a) == State(live, Entered(requests, 0, 0, t + 1))
  {
    a := Enter(t, requests[t].id, requests[t].uid);
    EnteredGrows(requests, t);
  }

  lemma {:induction false} EnteredGrows(requests: seq<Request>, t: nat)
    requires t < |requests|
    ensures t !in Entered(requests, 0, 0, t)
    ensures Entered(requests, 0, 0, t + 1) == Entered(requests, 0, 0, t)[t := Checking(requests[t].id, requests[t].uid)]
  {
  }

  lemma {:induction false} CheckStep(limits: Limits, live: map<Name, Name>, requests: seq<Request>, t: nat) returns (a: Action)
    requires AllAdmissible(limits, live, requests) && t < |requests|
    ensures
      var s := State(live, Entered(requests, t, 0, |requests|));
      Enabled(PerSandbox, s, a) && After(PerSandbox, limits, s, a) == State(live, Entered(requests, t + 1, 0, |requests|))
  {
    var owners := SomeListing(live);
    a := Check(t, owners);
    AdmittedBelowLimits(limits, live, owners, requests[t].uid);
    EnteredMoves(requests, t);
    hide Entered, Lists, LockFree, CheckCapacity, Owned;
  }

  lemma {:induction false} EnteredMoves(requests: seq<Request>, t: nat)
    requires t < |requests|
    ensures
      var entered := Entered(requests, t, 0, |requests|);
      && t in entered && entered[t] == Checking(requests[t].id, requests[t].uid)
      && Entered(requests, t + 1, 0, |requests|) == entered[t := Checked(requests[t].id, requests[t].uid)]
  {
  }

  lemma {:induction false} InsertStep(limits: Limits, live: map<Name, Name>, requests: seq<Request>, t: nat) returns (a: Action)
    requires AllAdmissible(limits, live, requests) && t < |requests|
    ensures
      var n := |requests|;
      var s := State(Inserted(live, requests, t), Entered(requests, n, t, n));
      && Enabled(PerSandbox, s, a)
      && After(PerSandbox, limits, s, a) == State(Inserted(live, requests, t + 1), Entered(requests, n, t + 1, n))
  {
    a := Insert(t);
    InsertedKeys(live, requests, t, t);
    EnteredShrinks(requests, t);
    hide Entered, AllAdmissible, LockFree, Lists;
  }

  lemma {:induction false} EnteredShrinks(requests: seq<Request>, t: nat)
    requires t < |requests|
    ensures
      var n, entered := |requests|, Entered(requests, |requests|, t, |requests|);
      && t in entered && entered[t] == Checked(requests[t].id, requests[t].uid)
      && Entered(requests, n, t + 1, n) == entered - {t}
  {
  }

  ghost predicate Drives(limits: Limits, live: map<Name, Name>, requests: seq<Request>, actions: seq<Action>)
    requires |actions| <= 3 * |requests|
  {
    forall k {:trigger actions[k]} :: 0 <= k < |actions| ==>
      && Enabled(PerSandbox, Overrun(live, requests, k), actions[k])
      && Overrun(live, requests, k + 1) == After(PerSandbox, limits, Overrun(live, requests, k), actions[k])
  }

  lemma {:induction false} OverrunActions(limits: Limits, live: map<Name, Name>, requests: seq<Request>, steps: nat)
    returns (actions: seq<Action>)
    requires AllAdmissible(limits, live, requests) && steps <= 3 * |requests|
    ensures |actions| == steps && Drives(limits, live, requests, actions)
  {
    hide Overrun, AllAdmissible, Enabled, After;
    actions := [];
    if steps > 0 {
      var before := OverrunActions(limits, live, requests, steps - 1);
      var a := OverrunStep(limits, live, requests, steps - 1);
      actions := before + [a];
      forall k | 0 <= k < steps
        ensures Enabled(PerSandbox, Overrun(live, requests, k), actions[k])
        ensures Overrun(live, requests, k + 1) == After(PerSandbox, limits, Overrun(live, requests, k), actions[k])
      {
        if k < steps - 1 { assert actions[k] == before[k]; }
      }
    }
  }

  lemma {:induction false} OverrunRun(limits: Limits, live: map<Name, Name>, requests: seq<Request>)
    returns (states: seq<State>, actions: seq<Action>)
    requires AllAdmissible(limits, live, requests)
    ensures IsRun(PerSandbox, limits, states, actions) && |actions| == 3 * |requests|
    ensures forall j :: 0 <= j < |states| ==> states[j] == Overrun(live, requests, j)
  {
    hide Overrun, Enabled, After, AllAdmissible;
    var steps := 3 * |requests|;
    actions := OverrunActions(limits, live, requests, steps);
    states := seq(steps + 1, j requires 0 <= j <= steps => Overrun(live, requests, j));
    forall k | 0 <= k < steps
      ensures Enabled(PerSandbox, states[k], actions[k])
      ensures states[k + 1] == After(PerSandbox, limits, states[k], actions[k])
    {
      assert states[k] == Overrun(live, requests, k) && states[k + 1] == Overrun(live, requests, k + 1);
    }
  }

  function Below(n: nat): (r: set<nat>)
    ensures |r| == n
    ensures forall t: nat :: t in r <==> t < n
  {
    if n == 0 then {} else Below(n - 1) + {n - 1}
  }

  lemma {:induction false} CreatingIsBounded(live: map<Name, Name>, requests: seq<Request>, step: nat)
    requires step <= 3 * |requests|
    ensures |Overrun(live, requests, step).creating| <= |requests|
  {
    SubsetCount(Overrun(live, requests, step).creating.Keys, Below(|requests|));
  }

  /**
   The bound with a lock per sandbox is the best possible: k requests admissible at once all get in,
   with never more than k creations at a time, and end k instances above where they started; so from
   one below a limit they end at the limit plus k - 1.
   */
  lemma {:induction false} BoundIsReached(limits: Limits, live: map<Name, Name>, requests: seq<Request>)
    returns (states: seq<State>, actions: seq<Action>)
    requires AllAdmissible(limits, live, requests)
    ensures IsRun(PerSandbox, limits, states, actions)
    ensures states[0] == State(live, map[])
    ensures forall j :: 0 <= j < |states| ==> |states[j].creating| <= |requests|
    ensures |states[|actions|].live| == |live| + |requests|
    ensures forall uid :: (forall i :: 0 <= i < |requests| ==> requests[i].uid == uid) ==>
      |Owned(states[|actions|].live, uid)| == |Owned(live, uid)| + |requests|
  {
    var n := |requests|;
    states, actions := OverrunRun(limits, live, requests);
    forall j | 0 <= j < |states| ensures |states[j].creating| <= n {
      CreatingIsBounded(live, requests, j);
    }
    assert states[3 * n].live == Inserted(live, requests, n);
    if n > 0 { InsertedKeys(live, requests, n, 0); }
    forall uid | forall i :: 0 <= i < n ==> requests[i].uid == uid
      ensures |Owned(states[3 * n].live, uid)| == |Owned(live, uid)| + n
    {
      InsertedOwned(live, requests, n, uid);
    }
  }
}
