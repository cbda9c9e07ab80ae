/** Quiescence is final, and generations fence every delete, whatever the interleaving. */
module LifecycleQuiescence {
  import opened Wrappers
  import opened OperationPins
  import opened Inventory
  import opened Lifecycle
  import opened LifecycleInvariant

  // ---- Quiescence ---------------------------------------------------------------------------------

  lemma {:induction false} FinishedStaysFinished(s: State, a: Action, t: Tid)
    requires Enabled(s, a) && t in s.threads && Finished(s.threads[t])
    ensures t in After(s, a).threads && After(s, a).threads[t] == s.threads[t]
  {
  }

  lemma {:induction false} VerdictStands(states: seq<State>, actions: seq<Action>, i: nat, j: nat, t: Tid)
    requires IsRun(states, actions) && i <= j < |states|
    requires t in states[i].threads && Finished(states[i].threads[t])
    ensures t in states[j].threads && states[j].threads[t] == states[i].threads[t]
    decreases j - i
  {
    if i < j {
      VerdictStands(states, actions, i, j - 1, t);
      assert Enabled(states[j - 1], actions[j - 1]);
      FinishedStaysFinished(states[j - 1], actions[j - 1], t);
    }
  }

  /**
   Once a quiescing call has returned ok, in every later state the inventory is empty, no creation
   is in flight and the gate admits none.
   */
  lemma {:induction false} QuiescenceIsFinal(states: seq<State>, actions: seq<Action>, i: nat, j: nat, t: Tid)
    requires IsExecution(states, actions) && i <= j < |states|
    requires t in states[i].threads && states[i].threads[t] == Quiesced(true)
    ensures states[j].shared.catalog.records == map[]
    ensures states[j].shared.gate.started && Creators(states[j].threads) == {}
  {
    VerdictStands(states, actions, i, j, t);
    ExecutionKeepsInv(states, actions, j);
    assert GateRespected(states[j].shared, states[j].threads[t]);
  }

  /** The caller is past the gate: nothing created after this is possible, before the listing even starts. */
  lemma {:induction false} NoCreationPastTheGate(states: seq<State>, actions: seq<Action>, k: nat, t: Tid, u: Tid)
    requires IsExecution(states, actions) && k < |states|
    requires t in states[k].threads && PastGate(states[k].threads[t])
    requires u in states[k].threads
    ensures !InFlight(states[k].threads[u])
  {
    ExecutionKeepsInv(states, actions, k);
    assert GateRespected(states[k].shared, states[k].threads[t]);
    assert Creators(states[k].threads) == {};
    assert u !in Creators(states[k].threads);
  }

  // ---- Generations ---------------------------------------------------------------------------------

  /** The inventory holds this very generation of the sandbox. */
  predicate Lives(s: State, id: SandboxId, g: Generation) {
    id in s.shared.catalog.records && s.shared.catalog.records[id].generation == g
  }

  /** The thread is at the delete of this sandbox, and its fence lets this generation go. */
  predicate MayDelete(th: Thread, id: SandboxId, g: Generation) {
    && (th.Owning? || th.Condemned?)
    && th.d.id == id
    && (th.d.fence.Named? ==> th.d.fence.generation == g)
    && (!th.d.who.Api? ==> th.d.fence == Named(g) && g < th.d.born)
  }

  /** A generation leaves the inventory only through a delete naming it or naming none. */
  lemma {:induction false} RemovalIsFenced(s: State, a: Action, id: SandboxId, g: Generation)
    requires Inv(s) && Enabled(s, a)
    requires Lives(s, id, g) && !Lives(After(s, a), id, g)
    ensures a.Step? && MayDelete(s.threads[a.tid], id, g)
    ensures id !in After(s, a).shared.catalog.records
  {
    assert a.Step?;
    assert Dated(s.shared, s.threads[a.tid]);
    LocalCatalog(s.config, s.shared, s.threads[a.tid], a.fails);
  }

  lemma {:induction false} GenerationFence(states: seq<State>, actions: seq<Action>, k: nat, id: SandboxId, g: Generation)
    requires IsExecution(states, actions) && k < |actions|
    requires Lives(states[k], id, g) && !Lives(states[k + 1], id, g)
    ensures actions[k].Step? && actions[k].tid in states[k].threads
    ensures MayDelete(states[k].threads[actions[k].tid], id, g)
  {
    ExecutionKeepsInv(states, actions, k);
    assert Enabled(states[k], actions[k]);
    RemovalIsFenced(states[k], actions[k], id, g);
  }

  lemma {:induction false} DeletionIsKept(s: State, a: Action, t: Tid)
    requires Enabled(s, a)
    requires t in s.threads && HasDeletion(s.threads[t])
    ensures
      var s' := After(s, a);
      && t in s'.threads
      && (s'.threads[t].Done? || (HasDeletion(s'.threads[t]) && s'.threads[t].d == s.threads[t].d))
  {
    if a.Step? {
      hide LocalStep, After, Woken;
      var e := LocalStep(s.config, s.shared, s.threads[a.tid], a.fails);
      AfterStep(s, a.tid, a.fails, t);
      LocalCrew(s.config, s.shared, s.threads[a.tid], a.fails);
      WokenDeletion(if t == a.tid then e.thread else s.threads[t], e.pinsNotified, e.gateNotified);
    } else {
      hide LocalStep, WakeAll, Occupied, Busy, MaySpawn;
    }
  }

  lemma {:induction false} WokenDeletion(th: Thread, p: bool, g: bool)
    ensures th.Done? ==> Woken(th, p, g) == th
    ensures HasDeletion(th) ==> HasDeletion(Woken(th, p, g)) && Woken(th, p, g).d == th.d
  {
  }

  lemma {:induction false} DeletionOverTime(states: seq<State>, actions: seq<Action>, i: nat, k: nat, t: Tid)
    requires IsExecution(states, actions) && i <= k < |states|
    requires t in states[i].threads && HasDeletion(states[i].threads[t])
    ensures t in states[k].threads
    ensures states[k].threads[t].Done?
      || (HasDeletion(states[k].threads[t]) && states[k].threads[t].d == states[i].threads[t].d)
    decreases k - i
  {
    if i < k {
      DeletionOverTime(states, actions, i, k - 1, t);
      ExecutionKeepsInv(states, actions, k - 1);
      assert Enabled(states[k - 1], actions[k - 1]);
      if states[k - 1].threads[t].Done? {
        FinishedStaysFinished(states[k - 1], actions[k - 1], t);
      } else {
        DeletionIsKept(states[k - 1], actions[k - 1], t);
      }
    }
  }

  /**
   The reaper and quiescing never remove a generation created after they looked: a deleter that
   appears between states i and i + 1 removes only generations already issued in state i.
   */
  lemma {:induction false} LaterGenerationsAreSpared(
      states: seq<State>, actions: seq<Action>, i: nat, k: nat, t: Tid, id: SandboxId, g: Generation)
    requires IsExecution(states, actions) && i < k < |actions|
    requires t !in states[i].threads && t in states[i + 1].threads
    requires HasDeletion(states[i + 1].threads[t]) && !states[i + 1].threads[t].d.who.Api?
    requires Lives(states[k], id, g) && !Lives(states[k + 1], id, g)
    requires actions[k].Step? && actions[k].tid == t
    ensures g < states[i].shared.catalog.next
  {
    assert Enabled(states[i], actions[i]) && Enabled(states[k], actions[k]);
    GenerationFence(states, actions, k, id, g);
    DeletionOverTime(states, actions, i + 1, k, t);
    assert states[i + 1].threads[t].d.born == states[i].shared.catalog.next by {
      NewDeleterIsBornNow(states[i], actions[i], t);
    }
  }

  lemma {:induction false} NewDeleterIsBornNow(s: State, a: Action, t: Tid)
    requires Enabled(s, a) && t !in s.threads && t in After(s, a).threads
    requires HasDeletion(After(s, a).threads[t])
    ensures After(s, a).threads[t].d.born == s.shared.catalog.next
  {
    assert a.Spawn? || a.ListAll?;
    if a.ListAll? && s.shared.catalog.records != map[] {
      assert t in QueuedWorkers(s, a.tid, a.workers);
    }
  }

  /** A generation never comes back, under its own name or another. */
  lemma {:induction false} NoResurrection(states: seq<State>, actions: seq<Action>, i: nat, j: nat, g: Generation)
    requires IsExecution(states, actions) && i <= j < |states|
    requires g < states[i].shared.catalog.next
    requires forall id :: !Lives(states[i], id, g)
    ensures forall id :: !Lives(states[j], id, g)
    ensures g < states[j].shared.catalog.next
    decreases j - i
  {
    if i < j {
      NoResurrection(states, actions, i, j - 1, g);
      assert Enabled(states[j - 1], actions[j - 1]);
      CatalogOnlyAges(states[j - 1], actions[j - 1], g);
    }
  }

  lemma {:induction false} CatalogOnlyAges(s: State, a: Action, g: Generation)
    requires Enabled(s, a) && g < s.shared.catalog.next && forall id :: !Lives(s, id, g)
    ensures g < After(s, a).shared.catalog.next && forall id :: !Lives(After(s, a), id, g)
  {
    if a.Step? {
      LocalCatalog(s.config, s.shared, s.threads[a.tid], a.fails);
      hide LocalStep;
      forall id ensures !Lives(After(s, a), id, g) {
        assert !Lives(s, id, g);
      }
    } else {
      forall id ensures !Lives(After(s, a), id, g) {
        assert !Lives(s, id, g);
      }
    }
  }

  /** A fenced `forget` never drops the activity of another generation; a blank fence drops nothing. */
  lemma {:induction false} ForgetIsFenced(s: State, a: Action, id: SandboxId)
    requires Enabled(s, a)
    requires id in s.shared.activity && id !in After(s, a).shared.activity
    ensures
      && a.Step?
      && var th := s.threads[a.tid];
         && (th.Dropping? || th.Forgetting?) && th.d.id == id
         && !th.d.fence.Blank?
         && (th.d.fence.Named? ==> s.shared.activity[id].generation == Some(th.d.fence.generation))
  {
    assert a.Step?;
  }
}
