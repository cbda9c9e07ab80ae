/**
 Pinned operations and deletes of one sandbox exclude each other in the window of a deleter, exactly as
 long as no other deleter of the sandbox calls `end_delete` in it: the deletion mark is a set member, not
 a count, so the first of two overlapping deleters to finish takes the mark of the other away.
 */
module LifecycleExclusion {
  import opened OperationPins
  import opened Lifecycle
  import opened LifecycleInvariant
  import opened LifecycleReach

  /** Thread d has marked the sandbox and not yet called `end_delete`. */
  predicate InItsWindow(s: State, d: Tid, id: SandboxId) {
    d in s.threads && InWindow(s.threads[d], id)
  }

  /** The step is some deleter's `end_delete` of the sandbox. */
  predicate EndsDelete(s: State, a: Action, id: SandboxId) {
    a.Step? && a.tid in s.threads && s.threads[a.tid].Ending? && s.threads[a.tid].d.id == id
  }

  /** While d was in its window no other deleter of the sandbox has called `end_delete`. */
  ghost predicate Undisturbed(states: seq<State>, actions: seq<Action>, k: nat, d: Tid, id: SandboxId)
    requires k <= |actions| && k < |states|
  {
    forall i :: 0 <= i < k && InItsWindow(states[i], d, id) && EndsDelete(states[i], actions[i], id) ==> actions[i].tid == d
  }

  // ---- What a deleter relies on ---------------------------------------------------------------------

  /** In its window the sandbox is marked, and once `begin_delete` has returned it is unpinned. */
  predicate Guarded(sh: Shared, th: Thread, id: SandboxId) {
    InWindow(th, id) ==> id in sh.pins.deleting && (Deletes(th) ==> sh.pins.Count(id) == 0)
  }

  ghost predicate IsGuarded(s: State, d: Tid, id: SandboxId) {
    d in s.threads ==> Guarded(s.shared, s.threads[d], id)
  }

  lemma {:induction false} LocalGuard(config: Config, sh: Shared, th: Thread, fails: bool, other: Thread, id: SandboxId)
    requires Runnable(th) && Guarded(sh, other, id) && !(th.Ending? && th.d.id == id)
    ensures
      var e := LocalStep(config, sh, th, fails);
      Guarded(e.shared, Woken(other, e.pinsNotified, e.gateNotified), id)
  {
  }

  lemma {:induction false} LocalOwnGuard(config: Config, sh: Shared, th: Thread, fails: bool, id: SandboxId)
    requires Runnable(th) && Guarded(sh, th, id)
    ensures
      var e := LocalStep(config, sh, th, fails);
      Guarded(e.shared, Woken(e.thread, e.pinsNotified, e.gateNotified), id)
  {
  }

  lemma {:induction false} StepKeepsGuard(s: State, t: Tid, fails: bool, d: Tid, id: SandboxId)
    requires Enabled(s, Step(t, fails)) && IsGuarded(s, d, id)
    requires InItsWindow(s, d, id) && EndsDelete(s, Step(t, fails), id) ==> t == d
    ensures IsGuarded(After(s, Step(t, fails)), d, id)
  {
    if d in s.threads {
      AfterStep(s, t, fails, d);
      if d == t {
        LocalOwnGuard(s.config, s.shared, s.threads[t], fails, id);
      } else if InItsWindow(s, d, id) {
        LocalGuard(s.config, s.shared, s.threads[t], fails, s.threads[d], id);
      } else {
        var e := LocalStep(s.config, s.shared, s.threads[t], fails);
        WakingKeepsWindow(s.threads[d], e.pinsNotified, e.gateNotified, id);
      }
      hide LocalStep, After, Guarded, Woken;
    }
  }

  lemma {:induction false} WakingKeepsWindow(th: Thread, p: bool, g: bool, id: SandboxId)
    ensures InWindow(Woken(th, p, g), id) <==> InWindow(th, id)
    ensures Owns(Woken(th, p, g), id) <==> Owns(th, id)
  {
  }

  lemma {:induction false} InertKeepsGuard(s: State, s': State, d: Tid, id: SandboxId)
    requires OnlyInertChanges(s, s') && IsGuarded(s, d, id)
    ensures IsGuarded(s', d, id)
  {
    hide GateRespected, Dated;
  }

  lemma {:induction false} ActionKeepsGuard(s: State, a: Action, d: Tid, id: SandboxId)
    requires Inv(s) && Enabled(s, a) && IsGuarded(s, d, id)
    requires InItsWindow(s, d, id) && EndsDelete(s, a, id) ==> a.tid == d
    ensures IsGuarded(After(s, a), d, id)
  {
    hide Inv, IsGuarded, Enabled, After, OnlyInertChanges;
    if a.Step? {
      StepKeepsGuard(s, a.tid, a.fails, d, id);
    } else {
      NotAStep(s, a);
      InertKeepsGuard(s, After(s, a), d, id);
    }
  }

  lemma {:induction false} NotAStep(s: State, a: Action)
    requires Inv(s) && Enabled(s, a) && !a.Step?
    ensures OnlyInertChanges(s, After(s, a))
  {
    hide OnlyInertChanges, Enabled, After, Gated, Generations;
    if a.ListAll? { ListAllIsInert(s, a.tid, a.workers); } else { OtherActionIsInert(s, a); }
  }

  /** Whatever other sandboxes and earlier windows saw, an undisturbed deleter is guarded. */
  lemma {:induction false} UndisturbedIsGuarded(states: seq<State>, actions: seq<Action>, k: nat, d: Tid, id: SandboxId)
    requires IsExecution(states, actions) && k < |states| && Undisturbed(states, actions, k, d, id)
    ensures IsGuarded(states[k], d, id)
  {
    hide Inv, IsGuarded, Enabled, After, Initial, InItsWindow, EndsDelete;
    if k == 0 {
      GuardedAtFirst(states[0], d, id);
    } else {
      UndisturbedIsGuarded(states, actions, k - 1, d, id);
      ExecutionKeepsInv(states, actions, k - 1);
      assert Enabled(states[k - 1], actions[k - 1]);
      ActionKeepsGuard(states[k - 1], actions[k - 1], d, id);
    }
  }

  lemma {:induction false} GuardedAtFirst(s: State, d: Tid, id: SandboxId)
    requires Initial(s)
    ensures IsGuarded(s, d, id)
  {
  }

  /** From the return of `begin_delete` to `end_delete` nobody holds a pin on the sandbox. */
  lemma {:induction false} DeletesExcludeOperations(states: seq<State>, actions: seq<Action>, k: nat, d: Tid, h: Tid, id: SandboxId)
    requires IsExecution(states, actions) && k < |states| && Undisturbed(states, actions, k, d, id)
    requires d in states[k].threads && Owns(states[k].threads[d], id)
    requires h in states[k].threads
    ensures !Holds(states[k].threads[h], id)
  {
    UndisturbedIsGuarded(states, actions, k, d, id);
    ExecutionKeepsInv(states, actions, k);
    HolderIsCounted(states[k], h, id);
  }

  // ---- While a window is open the pins only fall --------------------------------------------------------

  lemma {:induction false} PinsFall(s: State, a: Action, id: SandboxId)
    requires CountsExact(s) && Enabled(s, a) && id in s.shared.pins.deleting
    ensures After(s, a).shared.pins.Count(id) <= s.shared.pins.Count(id)
    ensures
      a.Step? && s.threads[a.tid].Releasing? && s.threads[a.tid].id == id
      ==> After(s, a).shared.pins.Count(id) == s.shared.pins.Count(id) - 1
  {
    if a.Step? {
      var th := s.threads[a.tid];
      HolderIsCounted(s, a.tid, id);
      hide CountsExact;
      LocalPinsFall(s.config, s.shared, th, a.fails, id);
      hide LocalStep;
    }
  }

  lemma {:induction false} LocalPinsFall(config: Config, sh: Shared, th: Thread, fails: bool, id: SandboxId)
    requires Runnable(th) && id in sh.pins.deleting && (Holds(th, id) ==> sh.pins.Count(id) >= 1)
    ensures
      var e := LocalStep(config, sh, th, fails);
      if th.Releasing? && th.id == id then e.shared.pins.Count(id) == sh.pins.Count(id) - 1
      else e.shared.pins.Count(id) == sh.pins.Count(id)
  {
  }

  /** In an undisturbed window the number of pins never rises, and every release lowers it. */
  lemma {:induction false} PinsOnlyFallInAWindow(states: seq<State>, actions: seq<Action>, k: nat, d: Tid, id: SandboxId)
    requires IsExecution(states, actions) && k < |actions| && Undisturbed(states, actions, k, d, id)
    requires InItsWindow(states[k], d, id)
    ensures states[k + 1].shared.pins.Count(id) <= states[k].shared.pins.Count(id)
    ensures
      actions[k].Step? && Enabled(states[k], actions[k])
      && states[k].threads[actions[k].tid].Releasing? && states[k].threads[actions[k].tid].id == id
      ==> states[k + 1].shared.pins.Count(id) == states[k].shared.pins.Count(id) - 1
  {
    UndisturbedIsGuarded(states, actions, k, d, id);
    ExecutionKeepsInv(states, actions, k);
    assert Enabled(states[k], actions[k]) && CountsExact(states[k]) && id in states[k].shared.pins.deleting;
    hide Inv, CountsExact, Initial, Undisturbed, Guarded, InWindow;
    PinsFall(states[k], actions[k], id);
  }

  // ---- The converse ---------------------------------------------------------------------------------------

  /** The run stays in the window of d, and no other deleter of the sandbox calls `end_delete` in it. */
  ghost predicate StaysInWindow(states: seq<State>, actions: seq<Action>, d: Tid, id: SandboxId) {
    && IsRun(states, actions)
    && Undisturbed(states, actions, |actions|, d, id)
    && forall i :: 0 <= i < |states| ==> InItsWindow(states[i], d, id)
  }

  /** No pin has been added, and none is left if `begin_delete` has returned to d. */
  predicate NoPinAdded(s: State, s': State, d: Tid, id: SandboxId) {
    && s'.shared.pins.Count(id) <= s.shared.pins.Count(id)
    && (d in s'.threads && Owns(s'.threads[d], id) ==> s'.shared.pins.Count(id) == 0)
  }

  /** However the run goes on in the window, d and the operations on its sandbox exclude each other. */
  ghost predicate Excludes(s: State, d: Tid, id: SandboxId) {
    forall states: seq<State>, actions: seq<Action> ::
      StaysInWindow(states, actions, d, id) && states[0] == s ==> NoPinAdded(s, states[|actions|], d, id)
  }

  lemma {:induction false} RunKeepsGuard(states: seq<State>, actions: seq<Action>, k: nat, d: Tid, id: SandboxId)
    requires StaysInWindow(states, actions, d, id) && k < |states|
    requires Inv(states[0]) && IsGuarded(states[0], d, id)
    ensures Inv(states[k]) && IsGuarded(states[k], d, id)
    ensures states[k].shared.pins.Count(id) <= states[0].shared.pins.Count(id)
  {
    hide Inv, IsGuarded, Enabled, After, EndsDelete, PinTable.Count, InItsWindow;
    if k > 0 {
      RunKeepsGuard(states, actions, k - 1, d, id);
      var s, a := states[k - 1], actions[k - 1];
      assert Enabled(s, a) && InItsWindow(s, d, id);
      ActionKeepsInv(s, a);
      ActionKeepsGuard(s, a, d, id);
      GuardedPinsFall(s, a, d, id);
    }
  }

  lemma {:induction false} GuardedPinsFall(s: State, a: Action, d: Tid, id: SandboxId)
    requires Inv(s) && Enabled(s, a) && IsGuarded(s, d, id) && InItsWindow(s, d, id)
    ensures After(s, a).shared.pins.Count(id) <= s.shared.pins.Count(id)
  {
    assert CountsExact(s) && id in s.shared.pins.deleting;
    hide Inv, CountsExact, Enabled, After;
    PinsFall(s, a, id);
  }

  lemma {:induction false} GuardedExcludes(s: State, d: Tid, id: SandboxId)
    requires Inv(s) && IsGuarded(s, d, id)
    ensures Excludes(s, d, id)
  {
    hide Inv;
    forall states: seq<State>, actions: seq<Action> | StaysInWindow(states, actions, d, id) && states[0] == s
      ensures NoPinAdded(s, states[|actions|], d, id)
    {
      RunKeepsGuard(states, actions, |actions|, d, id);
      hide StaysInWindow;
    }
  }

  /** Without the mark an operation that arrives gets its pin. */
  lemma {:induction false} UnmarkedAdmits(s: State, d: Tid, id: SandboxId)
    requires InItsWindow(s, d, id) && id !in s.shared.pins.deleting
    ensures !Excludes(s, d, id)
  {
    var h := FreshTid(s.threads.Keys);
    var arrive, enter := Spawn(h, Acquiring(Lookup, id)), Step(h, false);
    var m := After(s, arrive);
    var e := After(m, enter);
    assert m.threads[h] == Acquiring(Lookup, id) && Enabled(m, enter);
    AfterStep(m, enter.tid, enter.fails, d);
    var states, actions := [s, m, e], [arrive, enter];
    assert e.shared.pins.Count(id) == s.shared.pins.Count(id) + 1;
    assert InItsWindow(m, d, id) && InItsWindow(e, d, id);
    assert !EndsDelete(s, arrive, id) && !EndsDelete(m, enter, id);
    hide After, Enabled, InItsWindow, EndsDelete, LocalStep, PinTable.Count;
    assert IsRun(states, actions);
    assert StaysInWindow(states, actions, d, id);
    assert states[|actions|] == e && !NoPinAdded(s, e, d, id);
  }

  /** In a reachable state exclusion holds from now on if and only if d is guarded: marked, and unpinned if it owns. */
  lemma {:induction false} ExcludesIffGuarded(s: State, d: Tid, id: SandboxId)
    requires Inv(s) && InItsWindow(s, d, id)
    ensures Excludes(s, d, id) <==> IsGuarded(s, d, id)
  {
    if IsGuarded(s, d, id) {
      GuardedExcludes(s, d, id);
    } else if id !in s.shared.pins.deleting {
      UnmarkedAdmits(s, d, id);
    } else {
      var states, actions: seq<Action> := [s], [];
      assert IsRun(states, actions) && StaysInWindow(states, actions, d, id);
      assert states[|actions|] == s && !NoPinAdded(s, s, d, id);
    }
    hide Inv, Excludes;
  }

  /** Another deleter's `end_delete` takes the mark away, and d is still in its window. */
  lemma {:induction false} EndTakesMark(s: State, a: Action, d: Tid, id: SandboxId)
    requires Enabled(s, a) && EndsDelete(s, a, id) && a.tid != d && InItsWindow(s, d, id)
    ensures InItsWindow(After(s, a), d, id) && id !in After(s, a).shared.pins.deleting
  {
    AfterStep(s, a.tid, a.fails, d);
    hide WakeAll;
  }

  /**
   Over the whole window of a deleter so far, whatever could have followed at any moment of it, exclusion
   holds if and only if no other deleter of the sandbox has called `end_delete` in the window.
   */
  lemma {:induction false} ExclusionIff(states: seq<State>, actions: seq<Action>, k: nat, d: Tid, id: SandboxId)
    requires IsExecution(states, actions) && k < |states| && InItsWindow(states[k], d, id)
    ensures (forall i :: 0 <= i <= k && InItsWindow(states[i], d, id) ==> Excludes(states[i], d, id))
       <==> Undisturbed(states, actions, k, d, id)
  {
    hide Inv, Enabled, After, Initial, InItsWindow, Excludes;
    if Undisturbed(states, actions, k, d, id) {
      forall i | 0 <= i <= k && InItsWindow(states[i], d, id) ensures Excludes(states[i], d, id) {
        UndisturbedIsGuarded(states, actions, i, d, id);
        ExecutionKeepsInv(states, actions, i);
        GuardedExcludes(states[i], d, id);
      }
    } else {
      var i :| 0 <= i < k && InItsWindow(states[i], d, id) && EndsDelete(states[i], actions[i], id) && actions[i].tid != d;
      assert Enabled(states[i], actions[i]);
      EndTakesMark(states[i], actions[i], d, id);
      UnmarkedAdmits(states[i + 1], d, id);
    }
  }

  // ---- The reaper ------------------------------------------------------------------------------------------

  /** No entry of the activity table is older than the last touch made under a pin. */
  predicate TouchesSeen(sh: Shared) {
    && (forall id :: id in sh.pinned && id in sh.activity ==> sh.pinned[id] <= sh.activity[id].at)
    && (forall id :: id in sh.pinned ==> sh.pinned[id] <= sh.now)
  }

  /** A condemned sandbox has not been touched under a pin since its cutoff. */
  predicate Untouched(sh: Shared, th: Thread) {
    th.Condemned? ==> th.d.id in sh.pinned ==> sh.pinned[th.d.id] <= th.cutoff
  }

  lemma {:induction false} LocalTouches(config: Config, sh: Shared, th: Thread, fails: bool)
    requires Runnable(th) && TouchesSeen(sh)
    ensures TouchesSeen(LocalStep(config, sh, th, fails).shared)
  {
  }

  lemma {:induction false} LocalUntouched(config: Config, sh: Shared, th: Thread, fails: bool, other: Thread)
    requires Runnable(th) && Untouched(sh, other)
    requires other.Condemned? ==> !Holds(th, other.d.id)
    ensures
      var e := LocalStep(config, sh, th, fails);
      Untouched(e.shared, Woken(other, e.pinsNotified, e.gateNotified))
  {
  }

  lemma {:induction false} LocalOwnUntouched(config: Config, sh: Shared, th: Thread, fails: bool)
    requires Runnable(th) && Untouched(sh, th) && TouchesSeen(sh)
    ensures
      var e := LocalStep(config, sh, th, fails);
      Untouched(e.shared, Woken(e.thread, e.pinsNotified, e.gateNotified))
  {
  }

  lemma {:induction false} TouchesAlwaysSeen(states: seq<State>, actions: seq<Action>, k: nat)
    requires IsExecution(states, actions) && k < |states|
    ensures TouchesSeen(states[k].shared)
  {
    if k > 0 {
      TouchesAlwaysSeen(states, actions, k - 1);
      var s, a := states[k - 1], actions[k - 1];
      assert Enabled(s, a);
      hide TouchesSeen, LocalStep, Initial;
      if a.Step? {
        LocalTouches(s.config, s.shared, s.threads[a.tid], a.fails);
      } else {
        OtherTouches(s, a);
      }
    }
  }

  lemma {:induction false} OtherTouches(s: State, a: Action)
    requires Enabled(s, a) && !a.Step? && TouchesSeen(s.shared)
    ensures TouchesSeen(After(s, a).shared)
  {
  }

  /** An undisturbed reaper's cutoff is not older than the last touch, from its recheck to its removal. */
  lemma {:induction false} CondemnedIsUntouched(states: seq<State>, actions: seq<Action>, k: nat, d: Tid, id: SandboxId)
    requires IsExecution(states, actions) && k < |states| && Undisturbed(states, actions, k, d, id)
    requires d in states[k].threads && states[k].threads[d].Condemned? && states[k].threads[d].d.id == id
    ensures Untouched(states[k].shared, states[k].threads[d])
  {
    var s, a := states[k - 1], actions[k - 1];
    assert Enabled(s, a);
    hide Inv, Initial, TouchesSeen, Undisturbed;
    ExecutionKeepsInv(states, actions, k - 1);
    CondemnedBefore(s, a, d);
    if s.threads[d].Condemned? {
      assert Undisturbed(states, actions, k - 1, d, id) by {
        UndisturbedBefore(states, actions, k, d, id);
      }
      CondemnedIsUntouched(states, actions, k - 1, d, id);
      if a.Step? {
        DeletesExcludeOperations(states, actions, k - 1, d, a.tid, id);
      }
      CondemnedStays(s, a, d);
    } else {
      TouchesAlwaysSeen(states, actions, k - 1);
      RecheckSees(s, a, d);
    }
  }

  lemma {:induction false} UndisturbedBefore(states: seq<State>, actions: seq<Action>, k: nat, d: Tid, id: SandboxId)
    requires 0 < k <= |actions| && k < |states| && Undisturbed(states, actions, k, d, id)
    ensures Undisturbed(states, actions, k - 1, d, id)
  {
    hide InItsWindow, EndsDelete;
  }

  /** A condemned sandbox was condemned before, or has just been rechecked. */
  lemma {:induction false} CondemnedBefore(s: State, a: Action, d: Tid)
    requires Enabled(s, a) && d in After(s, a).threads && After(s, a).threads[d].Condemned?
    ensures
      && d in s.threads
      && if s.threads[d].Condemned? then After(s, a).threads[d] == s.threads[d]
         else a.Step? && a.tid == d && s.threads[d].Owning?
  {
  }

  lemma {:induction false} CondemnedStays(s: State, a: Action, d: Tid)
    requires Enabled(s, a) && d in s.threads && s.threads[d].Condemned? && Untouched(s.shared, s.threads[d])
    requires d in After(s, a).threads && After(s, a).threads[d] == s.threads[d]
    requires a.Step? ==> !Holds(s.threads[a.tid], s.threads[d].d.id)
    ensures Untouched(After(s, a).shared, s.threads[d])
  {
    if a.Step? {
      LocalUntouched(s.config, s.shared, s.threads[a.tid], a.fails, s.threads[d]);
      hide LocalStep;
    }
  }

  lemma {:induction false} RecheckSees(s: State, a: Action, d: Tid)
    requires Enabled(s, a) && a.Step? && a.tid == d && !s.threads[d].Condemned? && TouchesSeen(s.shared)
    ensures Untouched(After(s, a).shared, After(s, a).threads[d])
  {
    LocalOwnUntouched(s.config, s.shared, s.threads[d], a.fails);
    AfterStep(s, d, a.fails, d);
    hide LocalStep, TouchesSeen;
  }

  /**
   When the reaper removes a sandbox no operation is in flight on it, and the last touch made under
   a pin is at least the idle timeout older than its recheck, which set the cutoff.
   */
  lemma {:induction false} ReaperSparesTheBusy(states: seq<State>, actions: seq<Action>, k: nat, id: SandboxId, h: Tid)
    requires IsExecution(states, actions) && k < |actions|
    requires id in states[k].shared.catalog.records && id !in states[k + 1].shared.catalog.records
    requires actions[k].Step? && actions[k].tid in states[k].threads
    requires states[k].threads[actions[k].tid].Condemned?
    requires Undisturbed(states, actions, k, actions[k].tid, id)
    requires h in states[k].threads
    ensures !Holds(states[k].threads[h], id)
    ensures id in states[k].shared.pinned ==> states[k].shared.pinned[id] <= states[k].threads[actions[k].tid].cutoff
  {
    assert Enabled(states[k], actions[k]) && states[k + 1] == After(states[k], actions[k]);
    hide Undisturbed, Inv, Initial, Enabled, After;
    RemovedByItsDeleter(states[k], actions[k], id);
    CondemnedIsUntouched(states, actions, k, actions[k].tid, id);
    DeletesExcludeOperations(states, actions, k, actions[k].tid, h, id);
  }

  lemma {:induction false} RemovedByItsDeleter(s: State, a: Action, id: SandboxId)
    requires Enabled(s, a) && a.Step? && s.threads[a.tid].Condemned?
    requires id in s.shared.catalog.records && id !in After(s, a).shared.catalog.records
    ensures s.threads[a.tid].d.id == id
  {
  }

  /** The cutoff of a condemned sandbox lies the idle timeout before the recheck that condemned it. */
  lemma {:induction false} CondemnedAtItsRecheck(s: State, a: Action, t: Tid)
    requires Enabled(s, a) && t in After(s, a).threads && After(s, a).threads[t].Condemned?
    requires t in s.threads ==> !s.threads[t].Condemned?
    ensures
      && t in s.threads && s.threads[t].Owning? && s.threads[t].d.who.Reaper?
      && After(s, a).threads[t] == Condemned(s.threads[t].d, s.shared.now - s.config.idleTimeout)
  {
  }
}
