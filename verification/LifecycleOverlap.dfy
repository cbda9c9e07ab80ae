/**
 How the exclusion of `LifecycleExclusion` is lost: whenever two deletes of one sandbox overlap, the run
 can go on to a state where an operation holds a pin while a deleter owns the sandbox, unless the workers
 for proxied requests may run out.
 */
module LifecycleOverlap {
  import opened Counting
  import opened OperationPins
  import opened Inventory
  import opened Lifecycle
  import opened LifecycleInvariant
  import opened LifecyclePool
  import opened LifecycleReach

  /** Two deleters of the sandbox with their windows open. */
  ghost predicate Overlap(s: State, d: Tid, e: Tid, id: SandboxId) {
    d != e && d in s.threads && e in s.threads && InWindow(s.threads[d], id) && InWindow(s.threads[e], id)
  }

  /** Nobody who holds a pin on the sandbox waits for a worker. */
  ghost predicate NoHolderQueued(s: State, id: SandboxId) {
    forall t :: t in s.threads ==> !HoldsQueued(s.threads[t], id)
  }

  /** A step of one thread, seen by another that is in its window. */
  lemma {:induction false} StepBesideWindow(s: State, t: Tid, fails: bool, d: Tid, id: SandboxId) returns (s': State)
    requires Inv(s) && Enabled(s, Step(t, fails))
    requires d != t && d in s.threads && InWindow(s.threads[d], id)
    ensures s' == After(s, Step(t, fails)) && Inv(s') && Reaches(s, s')
    ensures d in s'.threads && InWindow(s'.threads[d], id)
    ensures Deletes(s.threads[d]) ==> s'.threads[d] == s.threads[d]
    ensures t in s'.threads && s'.threads[t] == LocalStep(s.config, s.shared, s.threads[t], fails).thread
    ensures s'.shared == LocalStep(s.config, s.shared, s.threads[t], fails).shared
  {
    s' := After(s, Step(t, fails));
    ActionKeepsInv(s, Step(t, fails));
    ReachesAfter(s, Step(t, fails));
    if s.threads[t].Releasing? { HolderIsCounted(s, t, s.threads[t].id); }
    LocalParked(s.config, s.shared, s.threads[t], fails, Done);
  }

  // ---- The queue is served ---------------------------------------------------------------------------

  /** With no more requests in the pool than workers the next job gets a worker. */
  lemma {:induction false} RoomForJob(s: State)
    requires PoolSound(s) && |InPool(s.threads)| <= s.config.workers && s.queue != []
    ensures Enabled(s, StartJob(s.queue[0]))
  {
    var t := s.queue[0];
    assert t in s.queue;
    assert Occupied(s.threads) + {t} <= InPool(s.threads) && t !in Occupied(s.threads);
    SubsetCount(Occupied(s.threads) + {t}, InPool(s.threads));
  }

  lemma {:induction false} StartJobKeepsOverlap(s: State, t: Tid, d: Tid, e: Tid, id: SandboxId)
    requires Enabled(s, StartJob(t)) && Overlap(s, d, e, id)
    ensures
      var s' := After(s, StartJob(t));
      Overlap(s', d, e, id) && InPool(s'.threads) == InPool(s.threads) && s'.config == s.config && s'.queue == s.queue[1..]
  {
  }

  lemma {:induction false} ServeOne(s: State, d: Tid, e: Tid, id: SandboxId) returns (s': State)
    requires Inv(s) && PoolSound(s) && Overlap(s, d, e, id) && |InPool(s.threads)| <= s.config.workers && s.queue != []
    ensures Inv(s') && PoolSound(s') && Overlap(s', d, e, id) && |InPool(s'.threads)| <= s'.config.workers
    ensures s'.queue == s.queue[1..] && Reaches(s, s')
  {
    hide Inv, Reaches, PoolSound, Overlap, InPool, Enabled, After;
    var t := s.queue[0];
    RoomForJob(s);
    StartJobKeepsOverlap(s, t, d, e, id);
    s' := After(s, StartJob(t));
    StartJobKeepsQueue(s, t);
    ActionKeepsInv(s, StartJob(t));
    ReachesAfter(s, StartJob(t));
  }

  /** So the queue can be emptied, and then no holder waits for a worker. */
  lemma {:induction false} ServeQueue(s: State, d: Tid, e: Tid, id: SandboxId) returns (s': State)
    requires Inv(s) && PoolSound(s) && Overlap(s, d, e, id) && |InPool(s.threads)| <= s.config.workers
    ensures Inv(s') && Overlap(s', d, e, id) && NoHolderQueued(s', id) && Reaches(s, s')
    decreases |s.queue|
  {
    if s.queue == [] {
      s' := s;
      ReachesSelf(s);
    } else {
      var m := ServeOne(s, d, e, id);
      s' := ServeQueue(m, d, e, id);
      ReachesOn(s, m, s');
    }
    hide Inv, Reaches, Overlap;
  }

  // ---- The pins are released -------------------------------------------------------------------------

  lemma {:induction false} HolderStaysUnqueued(s: State, h: Tid, id: SandboxId)
    requires Enabled(s, Step(h, true)) && Holds(s.threads[h], id) && NoHolderQueued(s, id)
    ensures NoHolderQueued(After(s, Step(h, true)), id)
  {
  }

  lemma {:induction false} HolderStep(config: Config, sh: Shared, th: Thread, id: SandboxId)
    requires Holds(th, id) && !IsJob(th) && sh.pins.Count(id) >= 1
    ensures Runnable(th) && !InWindow(th, id)
    ensures
      var e := LocalStep(config, sh, th, true);
      if th.Releasing? then e.shared.pins.Count(id) == sh.pins.Count(id) - 1
      else Holds(e.thread, id) && e.thread.Releasing? && e.shared.pins.Count(id) == sh.pins.Count(id)
  {
  }

  /** A holder that does not wait for a worker can go on to its release. */
  lemma {:induction false} ReleaseOne(s: State, h: Tid, d: Tid, e: Tid, id: SandboxId) returns (s': State)
    requires Inv(s) && Overlap(s, d, e, id) && NoHolderQueued(s, id)
    requires h in s.threads && Holds(s.threads[h], id)
    ensures Inv(s') && Overlap(s', d, e, id) && NoHolderQueued(s', id) && Reaches(s, s')
    ensures s'.shared.pins.Count(id) == s.shared.pins.Count(id) - 1
    decreases if s.threads[h].Releasing? then 0 else 1
  {
    HolderIsCounted(s, h, id);
    assert !HoldsQueued(s.threads[h], id);
    hide Inv, Reaches, NoHolderQueued, After, LocalStep, Holds, InWindow, Runnable;
    HolderStep(s.config, s.shared, s.threads[h], id);
    var m := StepBesideWindow(s, h, true, d, id);
    var m' := StepBesideWindow(s, h, true, e, id);
    HolderStaysUnqueued(s, h, id);
    if s.threads[h].Releasing? {
      s' := m;
    } else {
      s' := ReleaseOne(m, h, d, e, id);
      ReachesOn(s, m, s');
    }
  }

  lemma {:induction false} DrainAll(s: State, d: Tid, e: Tid, id: SandboxId) returns (s': State)
    requires Inv(s) && Overlap(s, d, e, id) && NoHolderQueued(s, id)
    ensures Inv(s') && Overlap(s', d, e, id) && Reaches(s, s')
    ensures s'.shared.pins.Count(id) == 0
    decreases s.shared.pins.Count(id)
  {
    if s.shared.pins.Count(id) == 0 {
      s' := s;
      ReachesSelf(s);
    } else {
      assert |Holders(s.threads, id)| > 0;
      assert Holders(s.threads, id) != {};
      var h :| h in Holders(s.threads, id);
      var m := ReleaseOne(s, h, d, e, id);
      s' := DrainAll(m, d, e, id);
      ReachesOn(s, m, s');
    }
  }

  /** With the sandbox unpinned a deleter gets past `begin_delete`. */
  lemma {:induction false} TakeOwnership(s: State, d: Tid, e: Tid, id: SandboxId) returns (s': State)
    requires Inv(s) && Overlap(s, d, e, id) && s.shared.pins.Count(id) == 0
    ensures Inv(s') && Overlap(s', d, e, id) && Reaches(s, s') && s'.shared.pins.Count(id) == 0
    ensures Owns(s'.threads[d], id)
    ensures Owns(s.threads[e], id) ==> Owns(s'.threads[e], id)
  {
    assert StillWaits(s.shared, s.threads[d]);
    if s.threads[d].Draining? {
      s' := StepBesideWindow(s, d, false, e, id);
    } else {
      s' := s;
      ReachesSelf(s);
    }
  }

  /** The steps an owner whose calls fail still has to make. */
  function StepsToEnd(th: Thread): nat {
    if th.Owning? then 2 else if th.Ending? then 0 else 1
  }

  lemma {:induction false} OwnerStep(config: Config, sh: Shared, th: Thread, id: SandboxId)
    requires Owns(th, id)
    ensures Runnable(th)
    ensures
      var e := LocalStep(config, sh, th, true);
      if th.Ending? then id !in e.shared.pins.deleting
      else Owns(e.thread, id) && StepsToEnd(e.thread) < StepsToEnd(th)
  {
  }

  /** An owner can always go on to its `end_delete`, which takes the mark away. */
  lemma {:induction false} FinishDelete(s: State, d: Tid, e: Tid, id: SandboxId) returns (s': State)
    requires Inv(s) && Overlap(s, d, e, id) && Owns(s.threads[d], id) && Owns(s.threads[e], id)
    ensures Inv(s') && Reaches(s, s')
    ensures e in s'.threads && Owns(s'.threads[e], id)
    ensures id !in s'.shared.pins.deleting
    decreases StepsToEnd(s.threads[d])
  {
    OwnerStep(s.config, s.shared, s.threads[d], id);
    hide LocalStep, Inv, Reaches, After, StepsToEnd;
    var m := StepBesideWindow(s, d, true, e, id);
    if s.threads[d].Ending? {
      s' := m;
    } else {
      s' := FinishDelete(m, d, e, id);
      ReachesOn(s, m, s');
    }
  }

  /** With the mark gone a new operation is admitted. */
  lemma {:induction false} AdmitOperation(s: State, e: Tid, id: SandboxId) returns (s': State, h: Tid)
    requires Inv(s) && e in s.threads && Owns(s.threads[e], id) && id !in s.shared.pins.deleting
    ensures Reaches(s, s')
    ensures e in s'.threads && Owns(s'.threads[e], id)
    ensures h in s'.threads && Holds(s'.threads[h], id)
  {
    h := FreshTid(s.threads.Keys);
    var spawn := Spawn(h, Acquiring(Lookup, id));
    var m := After(s, spawn);
    ReachesAfter(s, spawn);
    ActionKeepsInv(s, spawn);
    s' := StepBesideWindow(m, h, false, e, id);
    ReachesOn(s, m, s');
  }

  /**
   Every overlap of two deletes can be continued to a pinned sandbox that a deleter owns, provided that
   no holder of a pin on it waits for a worker or there are workers for all jobs.
   */
  lemma {:induction false} OverlapLosesExclusion(states: seq<State>, actions: seq<Action>, k: nat, d: Tid, e: Tid, id: SandboxId)
    returns (s': State, h: Tid)
    requires IsExecution(states, actions) && k < |states|
    requires Overlap(states[k], d, e, id)
    requires NoHolderQueued(states[k], id) || |InPool(states[k].threads)| <= states[k].config.workers
    ensures Reaches(states[k], s')
    ensures e in s'.threads && Owns(s'.threads[e], id)
    ensures h in s'.threads && Holds(s'.threads[h], id)
  {
    ExecutionKeepsInv(states, actions, k);
    PoolAlwaysSound(states, actions, k);
    hide Inv, Reaches, PoolSound, InPool, Holds, Owns, NoHolderQueued, IsExecution;
    var served := states[k];
    if NoHolderQueued(states[k], id) {
      ReachesSelf(states[k]);
    } else {
      served := ServeQueue(states[k], d, e, id);
    }
    var drained := DrainAll(served, d, e, id);
    var first := TakeOwnership(drained, e, d, id);
    var both := TakeOwnership(first, d, e, id);
    var ended := FinishDelete(both, d, e, id);
    s', h := AdmitOperation(ended, e, id);
    ReachesOn(states[k], served, drained);
    ReachesOn(states[k], drained, first);
    ReachesOn(states[k], first, both);
    ReachesOn(states[k], both, ended);
    ReachesOn(states[k], ended, s');
  }

  /** Overlaps need no special circumstance: two delete requests for one sandbox suffice, at any time. */
  lemma {:induction false} TwoDeleteRequestsOverlap(states: seq<State>, actions: seq<Action>, k: nat, id: SandboxId)
    returns (s': State, d: Tid, e: Tid)
    requires IsExecution(states, actions) && k < |states|
    ensures Reaches(states[k], s') && Overlap(s', d, e, id)
  {
    var s := states[k];
    ExecutionKeepsInv(states, actions, k);
    var request := Deleting(Deletion(Api, id, Unfenced, s.shared.catalog.next));
    d := FreshTid(s.threads.Keys);
    var s1 := After(s, Spawn(d, request));
    e := FreshTid(s1.threads.Keys);
    var s2 := After(s1, Spawn(e, request));
    var s3 := After(s2, Step(d, false));
    s' := After(s3, Step(e, false));
    ReachesAfter(s, Spawn(d, request));
    ReachesAfter(s1, Spawn(e, request));
    ReachesAfter(s2, Step(d, false));
    ReachesAfter(s3, Step(e, false));
    ReachesOn(s, s1, s2);
    ReachesOn(s, s2, s3);
    ReachesOn(s, s3, s');
  }
}
