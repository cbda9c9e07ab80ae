/**
 The pool of workers that proxied requests share: who waits for a worker, who has one, and when no
 worker will ever be free again.
 */
module LifecyclePool {
  import opened Counting
  import opened OperationPins
  import opened Lifecycle
  import opened LifecycleInvariant

  // ---- The queue holds the jobs that wait ----------------------------------------------------------

  predicate IsDistinct(queue: seq<Tid>) {
    forall i, j :: 0 <= i < j < |queue| ==> queue[i] != queue[j]
  }

  ghost predicate QueueHolds(threads: map<Tid, Thread>, queue: seq<Tid>) {
    forall t :: t in queue <==> t in threads && IsJob(threads[t])
  }

  ghost predicate PoolSound(s: State) {
    && IsDistinct(s.queue) && QueueHolds(s.threads, s.queue)
    && 1 <= s.config.workers && |Occupied(s.threads)| <= s.config.workers
  }

  /** The proxied requests that have a job: for their pin, for their sandbox or for the name of its host. */
  function InPool(threads: map<Tid, Thread>): set<Tid> {
    set t | t in threads && (IsJob(threads[t]) || HasWorker(threads[t]))
  }

  lemma {:induction false} WakingKeepsJobs(th: Thread, p: bool, g: bool)
    ensures IsJob(Woken(th, p, g)) <==> IsJob(th)
    ensures IsJob(th) ==> Woken(th, p, g) == th
    ensures HasWorker(Woken(th, p, g)) <==> HasWorker(th)
    ensures forall id :: WaitsFor(Woken(th, p, g), id) <==> WaitsFor(th, id)
  {
  }

  /** A step of its own takes no worker, and gives one back at most. */
  lemma {:induction false} LocalWorker(config: Config, sh: Shared, th: Thread, fails: bool)
    requires Runnable(th)
    ensures
      var e := LocalStep(config, sh, th, fails);
      && (HasWorker(e.thread) ==> HasWorker(th))
      && (IsJob(e.thread) ==> HasWorker(th))
  {
  }

  lemma {:induction false} StepKeepsQueue(s: State, t: Tid, fails: bool)
    requires PoolSound(s) && Enabled(s, Step(t, fails))
    ensures PoolSound(After(s, Step(t, fails)))
  {
    var s' := After(s, Step(t, fails));
    var e := LocalStep(s.config, s.shared, s.threads[t], fails);
    LocalWorker(s.config, s.shared, s.threads[t], fails);
    assert t !in s.queue;
    hide LocalStep, Woken, IsJob, HasWorker;
    forall u | u in s'.threads
      ensures IsJob(s'.threads[u]) <==> if u == t then IsJob(e.thread) else IsJob(s.threads[u])
      ensures HasWorker(s'.threads[u]) ==> HasWorker(s.threads[u])
    {
      WakingKeepsJobs(if u == t then e.thread else s.threads[u], e.pinsNotified, e.gateNotified);
    }
    SubsetCount(Occupied(s'.threads), Occupied(s.threads));
  }

  lemma {:induction false} StartJobKeepsQueue(s: State, t: Tid)
    requires PoolSound(s) && Enabled(s, StartJob(t))
    ensures PoolSound(After(s, StartJob(t)))
  {
    var s' := After(s, StartJob(t));
    assert forall u :: u in s'.queue <==> u in s.queue && u != t by {
      assert s.queue == [t] + s'.queue;
    }
    SameButOne(Occupied(s.threads), Occupied(s'.threads), t);
  }

  /** The action queues thread u: a new request, or one that needs a name looked up. */
  predicate Queues(a: Action, u: Tid) {
    (a.Spawn? && u == a.tid && IsJob(a.thread)) || (a.Resolve? && u == a.tid)
  }

  /** Apart from steps and starts, nothing changes a job and nothing takes a worker or a sandbox. */
  lemma {:induction false} OtherMovesNoJob(s: State, a: Action, u: Tid)
    requires Enabled(s, a) && !a.Step? && !a.StartJob?
    ensures u in s.threads && (IsJob(s.threads[u]) || HasWorker(s.threads[u])) ==>
              u in After(s, a).threads && After(s, a).threads[u] == s.threads[u]
    ensures u in After(s, a).threads && IsJob(After(s, a).threads[u]) ==>
              (u in s.threads && IsJob(s.threads[u])) || Queues(a, u)
    ensures u in After(s, a).threads && HasWorker(After(s, a).threads[u]) ==> u in s.threads && HasWorker(s.threads[u])
  {
    hide *;
    OtherKeepsJob(s, a, u);
    OtherAddsNoWorker(s, a, u);
  }

  lemma {:induction false} OtherKeepsJob(s: State, a: Action, u: Tid)
    requires Enabled(s, a) && !a.Step? && !a.StartJob?
    ensures u in s.threads && (IsJob(s.threads[u]) || HasWorker(s.threads[u])) ==>
              u in After(s, a).threads && After(s, a).threads[u] == s.threads[u]
  {
    hide Occupied, Busy, MaySpawn;
  }

  lemma {:induction false} OtherAddsNoWorker(s: State, a: Action, u: Tid)
    requires Enabled(s, a) && !a.Step? && !a.StartJob?
    ensures u in After(s, a).threads && IsJob(After(s, a).threads[u]) ==>
              (u in s.threads && IsJob(s.threads[u])) || Queues(a, u)
    ensures u in After(s, a).threads && HasWorker(After(s, a).threads[u]) ==> u in s.threads && HasWorker(s.threads[u])
  {
    hide Occupied, Busy, QueuesListing;
  }

  lemma {:induction false} OtherMovesNoOwner(s: State, a: Action, u: Tid, id: SandboxId)
    requires Enabled(s, a) && !a.Step? && !a.StartJob?
    ensures u in After(s, a).threads && Owns(After(s, a).threads[u], id) ==> u in s.threads && Owns(s.threads[u], id)
  {
  }

  lemma {:induction false} OtherKeepsQueue(s: State, a: Action)
    requires PoolSound(s) && Enabled(s, a) && !a.Step? && !a.StartJob?
    ensures PoolSound(After(s, a))
  {
    var s' := After(s, a);
    OtherQueues(s, a);
    hide After, Enabled, IsJob, HasWorker;
    forall u ensures u in s'.threads && IsJob(s'.threads[u]) <==> u in s'.queue {
      OtherMovesNoJob(s, a, u);
    }
    forall u ensures u in Occupied(s'.threads) <==> u in Occupied(s.threads) {
      OtherMovesNoJob(s, a, u);
    }
    assert Occupied(s'.threads) == Occupied(s.threads);
  }

  /** Apart from steps and starts, only such a request is queued, at the end. */
  lemma {:induction false} OtherQueues(s: State, a: Action)
    requires PoolSound(s) && Enabled(s, a) && !a.Step? && !a.StartJob?
    ensures After(s, a).config == s.config && IsDistinct(After(s, a).queue)
    ensures forall u :: u in After(s, a).queue <==> u in s.queue || Queues(a, u)
    ensures a.Spawn? ==> a.tid !in s.threads && a.tid in After(s, a).threads && After(s, a).threads[a.tid] == a.thread
  {
    hide Occupied, HasWorker, QueuesListing, MaySpawn;
  }

  /** In every state of every execution the queue holds exactly the waiting jobs, and no more workers are taken than there are. */
  lemma {:induction false} PoolAlwaysSound(states: seq<State>, actions: seq<Action>, k: nat)
    requires IsExecution(states, actions) && k < |states|
    ensures PoolSound(states[k])
  {
    if k == 0 {
      assert Occupied(states[0].threads) == {};
    } else {
      PoolAlwaysSound(states, actions, k - 1);
      var s, a := states[k - 1], actions[k - 1];
      assert Enabled(s, a);
      hide PoolSound;
      if a.Step? {
        StepKeepsQueue(s, a.tid, a.fails);
      } else if a.StartJob? {
        StartJobKeepsQueue(s, a.tid);
      } else {
        OtherKeepsQueue(s, a);
      }
    }
  }

  // ---- Starvation ------------------------------------------------------------------------------------

  /**
   The deletion of the sandbox waits for a pin whose holder waits for a worker, and no deleter is past
   that wait.
   */
  ghost predicate HeldUp(s: State, id: SandboxId) {
    && id in s.shared.pins.deleting
    && (exists h :: h in s.threads && HoldsQueued(s.threads[h], id))
    && forall u :: u in s.threads ==> !Owns(s.threads[u], id)
  }

  /** Every worker is taken by a request that waits for a deletion which is held up. */
  ghost predicate Starving(s: State) {
    && |Occupied(s.threads)| >= s.config.workers
    && forall t :: t in Occupied(s.threads) ==>
         WaitsFor(s.threads[t], s.threads[t].id) && HeldUp(s, s.threads[t].id)
  }

  lemma {:induction false} WaitingJobAddsOne(threads: map<Tid, Thread>, h: Tid)
    requires h in threads && IsJob(threads[h])
    ensures |InPool(threads)| >= |Occupied(threads)| + 1
  {
    SameButOne(Occupied(threads), Occupied(threads) + {h}, h);
    SubsetCount(Occupied(threads) + {h}, InPool(threads));
  }

  /** It takes one more proxied request than there are workers. */
  lemma {:induction false} StarvingTakesOneMore(s: State)
    requires 1 <= s.config.workers && Starving(s)
    ensures |InPool(s.threads)| > s.config.workers
  {
    assert Occupied(s.threads) != {};
    var t :| t in Occupied(s.threads);
    var h :| h in s.threads && HoldsQueued(s.threads[h], s.threads[t].id);
    hide Starving, HeldUp, Occupied, InPool;
    WaitingJobAddsOne(s.threads, h);
  }

  lemma {:induction false} LocalWaiter(config: Config, sh: Shared, th: Thread, fails: bool, id: SandboxId)
    requires Runnable(th) && WaitsFor(th, id) && id in sh.pins.deleting
    ensures LocalStep(config, sh, th, fails) == Effect(sh, AwaitingPin(Proxy, id), false, false)
  {
  }

  /** Only an owner takes the mark away, and nobody becomes an owner of a pinned sandbox. */
  lemma {:induction false} LocalHold(config: Config, sh: Shared, th: Thread, fails: bool, id: SandboxId)
    requires Runnable(th) && id in sh.pins.deleting && sh.pins.Count(id) > 0 && !Owns(th, id)
    ensures
      var e := LocalStep(config, sh, th, fails);
      id in e.shared.pins.deleting && !Owns(e.thread, id)
  {
  }

  lemma {:induction false} WakingKeepsOwner(th: Thread, p: bool, g: bool, id: SandboxId)
    ensures Owns(Woken(th, p, g), id) <==> Owns(th, id)
  {
  }

  lemma {:induction false} StepKeepsHeldUp(s: State, t: Tid, fails: bool, id: SandboxId)
    requires Inv(s) && Enabled(s, Step(t, fails)) && HeldUp(s, id)
    ensures HeldUp(After(s, Step(t, fails)), id)
  {
    var h :| h in s.threads && HoldsQueued(s.threads[h], id);
    var s', e := After(s, Step(t, fails)), LocalStep(s.config, s.shared, s.threads[t], fails);
    HolderIsCounted(s, h, id);
    assert Runnable(s.threads[t]) && h != t;
    LocalHold(s.config, s.shared, s.threads[t], fails, id);
    StepAddsNoThread(s, t, fails);
    AfterStep(s, t, fails, h);
    WakingKeepsJobs(s.threads[h], e.pinsNotified, e.gateNotified);
    assert h in s'.threads && HoldsQueued(s'.threads[h], id);
    hide LocalStep, After, Inv, Owns, Woken, Enabled;
    forall u | u in s'.threads ensures !Owns(s'.threads[u], id) {
      AfterStep(s, t, fails, u);
      WakingKeepsOwner(if u == t then e.thread else s.threads[u], e.pinsNotified, e.gateNotified, id);
    }
  }

  lemma {:induction false} StepAddsNoThread(s: State, t: Tid, fails: bool)
    requires Enabled(s, Step(t, fails))
    ensures After(s, Step(t, fails)).threads.Keys == s.threads.Keys
    ensures After(s, Step(t, fails)).config == s.config
  {
    hide LocalStep, Woken;
  }

  /** In a starving state a worker goes on waiting: it wakes, finds the sandbox still marked, and parks. */
  lemma {:induction false} StepKeepsWaiter(s: State, t: Tid, fails: bool, u: Tid, id: SandboxId)
    requires Enabled(s, Step(t, fails)) && u in s.threads && WaitsFor(s.threads[u], id) && id in s.shared.pins.deleting
    ensures u in After(s, Step(t, fails)).threads && WaitsFor(After(s, Step(t, fails)).threads[u], id)
  {
    AfterStep(s, t, fails, u);
    var e := LocalStep(s.config, s.shared, s.threads[t], fails);
    if u == t {
      LocalWaiter(s.config, s.shared, s.threads[t], fails, id);
    }
    hide LocalStep, After;
    WakingKeepsJobs(if u == t then e.thread else s.threads[u], e.pinsNotified, e.gateNotified);
  }

  lemma {:induction false} StepKeepsStarving(s: State, t: Tid, fails: bool)
    requires Inv(s) && Enabled(s, Step(t, fails)) && Starving(s)
    ensures Starving(After(s, Step(t, fails)))
    ensures Occupied(After(s, Step(t, fails)).threads) == Occupied(s.threads)
    ensures forall u :: u in Occupied(s.threads) ==> After(s, Step(t, fails)).threads[u].id == s.threads[u].id
  {
    var s' := After(s, Step(t, fails));
    StepAddsNoThread(s, t, fails);
    forall u ensures u in Occupied(s'.threads) <==> u in Occupied(s.threads)
      ensures u in Occupied(s.threads) ==> s'.threads[u].id == s.threads[u].id && WaitsFor(s'.threads[u], s.threads[u].id)
    {
      if u in Occupied(s.threads) {
        StepKeepsWaiter(s, t, fails, u, s.threads[u].id);
      } else if u in s.threads {
        FreeStaysFree(s, t, fails, u);
      }
    }
    assert Occupied(s'.threads) == Occupied(s.threads);
    hide After, Inv;
    forall u | u in Occupied(s'.threads) ensures HeldUp(s', s'.threads[u].id) {
      StepKeepsHeldUp(s, t, fails, s.threads[u].id);
    }
    hide HeldUp;
  }

  lemma {:induction false} FreeStaysFree(s: State, t: Tid, fails: bool, u: Tid)
    requires Enabled(s, Step(t, fails)) && u in s.threads && !HasWorker(s.threads[u])
    ensures u in After(s, Step(t, fails)).threads && !HasWorker(After(s, Step(t, fails)).threads[u])
  {
    AfterStep(s, t, fails, u);
    LocalWorker(s.config, s.shared, s.threads[t], fails);
    var e := LocalStep(s.config, s.shared, s.threads[t], fails);
    hide LocalStep, After;
    WakingKeepsJobs(if u == t then e.thread else s.threads[u], e.pinsNotified, e.gateNotified);
  }

  lemma {:induction false} OtherKeepsHeldUp(s: State, a: Action, id: SandboxId)
    requires Enabled(s, a) && !a.Step? && !a.StartJob? && HeldUp(s, id)
    ensures HeldUp(After(s, a), id)
  {
    var s' := After(s, a);
    var h :| h in s.threads && HoldsQueued(s.threads[h], id);
    assert s'.shared.pins == s.shared.pins;
    hide After, Enabled, Owns;
    OtherMovesNoJob(s, a, h);
    assert h in s'.threads && HoldsQueued(s'.threads[h], id);
    forall u | u in s'.threads ensures !Owns(s'.threads[u], id) {
      OtherMovesNoOwner(s, a, u, id);
    }
  }

  /** In a starving state no worker is free. */
  lemma {:induction false} StarvingStartsNoJob(s: State, a: Action)
    requires Enabled(s, a) && Starving(s)
    ensures !a.StartJob?
    ensures After(s, a).config == s.config
  {
    hide WaitsFor, HeldUp, LocalStep, Occupied, WakeAll, QueuesListing;
  }

  lemma {:induction false} OtherKeepsStarving(s: State, a: Action)
    requires Enabled(s, a) && !a.Step? && Starving(s)
    ensures Starving(After(s, a))
    ensures Occupied(After(s, a).threads) == Occupied(s.threads)
    ensures forall u :: u in Occupied(s.threads) ==> After(s, a).threads[u] == s.threads[u]
  {
    hide After, Enabled, HeldUp;
    var s' := After(s, a);
    StarvingStartsNoJob(s, a);
    forall u ensures u in Occupied(s'.threads) <==> u in Occupied(s.threads)
      ensures u in Occupied(s.threads) ==> s'.threads[u] == s.threads[u]
    {
      OtherMovesNoJob(s, a, u);
    }
    assert Occupied(s'.threads) == Occupied(s.threads);
    forall u | u in Occupied(s'.threads) ensures HeldUp(s', s'.threads[u].id) {
      OtherKeepsHeldUp(s, a, s.threads[u].id);
    }
  }

  /** A job that waits in a starving state has no worker after the next step either. */
  lemma {:induction false} JobsKeepWaiting(s: State, a: Action, t: Tid)
    requires Enabled(s, a) && Starving(s) && t in s.threads && IsJob(s.threads[t])
    ensures t in After(s, a).threads && After(s, a).threads[t] == s.threads[t]
  {
    StarvingStartsNoJob(s, a);
    hide Starving, LocalStep, After, WakeAll, QueuesListing;
    if a.Step? {
      JobOutlastsStep(s, a.tid, a.fails, t);
    } else {
      OtherMovesNoJob(s, a, t);
    }
  }

  lemma {:induction false} JobOutlastsStep(s: State, u: Tid, fails: bool, t: Tid)
    requires Enabled(s, Step(u, fails)) && t in s.threads && IsJob(s.threads[t])
    ensures t in After(s, Step(u, fails)).threads && After(s, Step(u, fails)).threads[t] == s.threads[t]
  {
    hide LocalStep, After, WakeAll, Woken;
    AfterStep(s, u, fails, t);
    var e := LocalStep(s.config, s.shared, s.threads[u], fails);
    WakingKeepsJobs(s.threads[t], e.pinsNotified, e.gateNotified);
  }

  /** The same workers are taken by requests for the same sandboxes, and no job of s has got a worker. */
  ghost predicate StarvesOn(s: State, s': State) {
    && Starving(s')
    && Occupied(s'.threads) == Occupied(s.threads)
    && (forall u :: u in Occupied(s.threads) ==> s'.threads[u].id == s.threads[u].id)
    && (forall t :: t in s.threads && IsJob(s.threads[t]) ==> t in s'.threads && s'.threads[t] == s.threads[t])
  }

  lemma {:induction false} ActionKeepsStarving(s: State, a: Action)
    requires Inv(s) && Enabled(s, a) && Starving(s)
    ensures StarvesOn(s, After(s, a))
  {
    if a.Step? {
      StepKeepsStarving(s, a.tid, a.fails);
    } else {
      OtherKeepsStarving(s, a);
    }
    forall t | t in s.threads && IsJob(s.threads[t])
      ensures t in After(s, a).threads && After(s, a).threads[t] == s.threads[t]
    {
      JobsKeepWaiting(s, a, t);
    }
    hide Starving, Inv, Occupied, After, Enabled;
  }

  lemma {:induction false} StarvesOnItself(s: State)
    requires Starving(s)
    ensures StarvesOn(s, s)
  {
    hide Starving;
  }

  lemma {:induction false} StarvesOnAfterwards(s: State, m: State, e: State)
    requires StarvesOn(s, m) && StarvesOn(m, e)
    ensures StarvesOn(s, e)
  {
    hide Starving, Occupied;
  }

  /**
   Once the provisioner starves it starves for ever: whatever else happens, no waiting job gets a
   worker, and the taken workers go on waiting for deletions that nobody carries out.
   */
  lemma {:induction false} StarvationIsForever(states: seq<State>, actions: seq<Action>, i: nat, j: nat)
    requires IsExecution(states, actions) && i <= j < |states| && Starving(states[i])
    ensures StarvesOn(states[i], states[j])
    decreases j - i
  {
    hide Inv, Initial, Starving, Occupied, Enabled, After;
    if i == j {
      StarvesOnItself(states[i]);
    } else {
      StarvationIsForever(states, actions, i, j - 1);
      ExecutionKeepsInv(states, actions, j - 1);
      assert Enabled(states[j - 1], actions[j - 1]);
      ActionKeepsStarving(states[j - 1], actions[j - 1]);
      StarvesOnAfterwards(states[i], states[j - 1], states[j]);
    }
  }
}
