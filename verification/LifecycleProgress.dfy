/** No wake-up is lost, and the provisioner stops only when the proxied requests have starved it of workers. */
module LifecycleProgress {
  import opened OperationPins
  import opened Lifecycle
  import opened LifecycleInvariant
  import opened LifecyclePool
  import opened LifecycleReach

  /** A parked thread of any execution waits for something that has not happened: no notification was lost. */
  lemma {:induction false} NoLostWakeups(states: seq<State>, actions: seq<Action>, k: nat, t: Tid)
    requires IsExecution(states, actions) && k < |states| && t in states[k].threads
    ensures
      var sh, th := states[k].shared, states[k].threads[t];
      && (th.AwaitingPin? ==> th.id in sh.pins.deleting)
      && (th.AwaitingDrain? ==> sh.pins.Count(th.d.id) > 0)
      && (th.AwaitingGate? ==> sh.gate.creates > 0)
  {
    ExecutionKeepsInv(states, actions, k);
    assert StillWaits(states[k].shared, states[k].threads[t]);
  }

  /** Progress made by the threads already there; a timeout does not count. */
  predicate IsProgress(a: Action) {
    a.Step? || a.StartJob? || a.StartWorker? || a.ListAll? || a.Join?
  }

  ghost predicate CanProgress(s: State) {
    exists a :: IsProgress(a) && Enabled(s, a)
  }

  /** Some thread can move, or some job waits for a worker. */
  ghost predicate MovesOrWaits(s: State) {
    CanProgress(s) || s.queue != []
  }

  lemma {:induction false} RunnableProgresses(s: State, t: Tid)
    requires t in s.threads && Runnable(s.threads[t])
    ensures CanProgress(s)
  {
    assert IsProgress(Step(t, false)) && Enabled(s, Step(t, false));
  }

  /** Whoever holds a pin can move, or waits for a worker to look the sandbox up. */
  lemma {:induction false} PinnedProgresses(s: State, id: SandboxId)
    requires Inv(s) && PoolSound(s) && s.shared.pins.Count(id) > 0
    ensures MovesOrWaits(s)
  {
    assert |Holders(s.threads, id)| > 0;
    assert Holders(s.threads, id) != {};
    var t :| t in Holders(s.threads, id);
    if IsJob(s.threads[t]) {
      assert t in s.queue;
    } else {
      RunnableProgresses(s, t);
    }
  }

  lemma {:induction false} StartedDeleterProgresses(s: State, t: Tid)
    requires Inv(s) && PoolSound(s) && t in s.threads && HasDeletion(s.threads[t]) && !s.threads[t].Queued?
    ensures MovesOrWaits(s)
  {
    assert StillWaits(s.shared, s.threads[t]);
    if s.threads[t].AwaitingDrain? {
      PinnedProgresses(s, s.threads[t].d.id);
    } else {
      RunnableProgresses(s, t);
    }
  }

  lemma {:induction false} PinWaiterProgresses(s: State, t: Tid)
    requires Inv(s) && PoolSound(s) && t in s.threads && s.threads[t].AwaitingPin?
    ensures MovesOrWaits(s)
  {
    assert StillWaits(s.shared, s.threads[t]);
    var u :| u in s.threads && InWindow(s.threads[u], s.threads[t].id);
    StartedDeleterProgresses(s, u);
  }

  lemma {:induction false} GateWaiterProgresses(s: State, t: Tid)
    requires Inv(s) && PoolSound(s) && t in s.threads && s.threads[t].AwaitingGate?
    ensures MovesOrWaits(s)
  {
    assert StillWaits(s.shared, s.threads[t]);
    assert |Creators(s.threads)| > 0;
    assert Creators(s.threads) != {};
    var u :| u in Creators(s.threads);
    if s.threads[u].AwaitingPin? {
      PinWaiterProgresses(s, u);
    } else {
      RunnableProgresses(s, u);
    }
  }

  /** A queued worker starts, unless its pool is full of workers one of which can move. */
  lemma {:induction false} QueuedWorkerProgresses(s: State, t: Tid)
    requires Inv(s) && PoolSound(s) && t in s.threads && s.threads[t].Queued?
    ensures MovesOrWaits(s)
  {
    assert Dated(s.shared, s.threads[t]);
    var busy := Busy(s.threads, s.threads[t].d.who.owner);
    if |busy| < s.config.deleteConcurrency {
      assert IsProgress(StartWorker(t)) && Enabled(s, StartWorker(t));
    } else {
      assert busy != {};
      var u :| u in busy;
      StartedDeleterProgresses(s, u);
    }
  }

  lemma {:induction false} JoinerProgresses(s: State, t: Tid)
    requires Inv(s) && PoolSound(s) && t in s.threads && s.threads[t].Joining?
    ensures MovesOrWaits(s)
  {
    if w :| w in s.threads[t].workers && w in s.threads && !Finished(s.threads[w]) {
      assert IsWorker(s.threads[w], t);
      if s.threads[w].Queued? {
        QueuedWorkerProgresses(s, w);
      } else {
        StartedDeleterProgresses(s, w);
      }
    } else {
      assert IsProgress(Join(t)) && Enabled(s, Join(t));
    }
  }

  /** Fresh worker threads exist for any inventory. */
  lemma {:induction false} FreshWorkers(taken: set<Tid>, ids: set<SandboxId>) returns (workers: map<Tid, SandboxId>)
    ensures workers.Keys !! taken
    ensures forall w :: w in workers ==> workers[w] in ids
    ensures forall id :: id in ids ==> exists w :: w in workers && workers[w] == id
    ensures forall v, w :: v in workers && w in workers && workers[v] == workers[w] ==> v == w
    decreases ids
  {
    if ids == {} {
      workers := map[];
    } else {
      var id :| id in ids;
      var rest := FreshWorkers(taken, ids - {id});
      var unused := FreshTid(taken + rest.Keys);
      workers := rest[unused := id];
      forall i | i in ids ensures exists w :: w in workers && workers[w] == i {
        if i == id {
          assert workers[unused] == i;
        } else {
          assert i in ids - {id};
          var w :| w in rest && rest[w] == i;
          assert workers[w] == i;
        }
      }
    }
  }

  lemma {:induction false} ListerProgresses(s: State, t: Tid)
    requires t in s.threads && s.threads[t].Listing?
    ensures CanProgress(s)
  {
    var workers := FreshWorkers(s.threads.Keys, s.shared.catalog.records.Keys);
    assert IsProgress(ListAll(t, workers)) && Enabled(s, ListAll(t, workers));
  }

  lemma {:induction false} UnfinishedMovesOrWaits(s: State, t: Tid)
    requires Inv(s) && PoolSound(s) && t in s.threads && !Finished(s.threads[t])
    ensures MovesOrWaits(s)
  {
    var th := s.threads[t];
    if IsJob(th) {
      assert t in s.queue;
    } else if th.AwaitingPin? {
      PinWaiterProgresses(s, t);
    } else if th.AwaitingGate? {
      GateWaiterProgresses(s, t);
    } else if th.Queued? {
      QueuedWorkerProgresses(s, t);
    } else if th.Joining? {
      JoinerProgresses(s, t);
    } else if th.Listing? {
      ListerProgresses(s, t);
    } else if th.AwaitingDrain? {
      StartedDeleterProgresses(s, t);
    } else {
      RunnableProgresses(s, t);
    }
  }

  lemma {:induction false} NothingRuns(s: State, t: Tid)
    requires !CanProgress(s) && t in s.threads
    ensures !Runnable(s.threads[t])
  {
    if Runnable(s.threads[t]) {
      RunnableProgresses(s, t);
    }
  }

  /** Where nothing can move, a pinned sandbox is pinned by a request whose job waits for a worker. */
  lemma {:induction false} StuckHolderWaits(s: State, id: SandboxId)
    requires CountsExact(s) && !CanProgress(s) && s.shared.pins.Count(id) > 0
    ensures exists h :: h in s.threads && HoldsQueued(s.threads[h], id)
  {
    assert |Holders(s.threads, id)| > 0;
    assert Holders(s.threads, id) != {};
    var h :| h in Holders(s.threads, id);
    NothingRuns(s, h);
    hide CanProgress, CountsExact;
    assert HoldsQueued(s.threads[h], id);
  }

  /** Where nothing can move, an open delete window belongs to a deleter that waits for the pins to go. */
  lemma {:induction false} StuckWindow(s: State, u: Tid, id: SandboxId)
    requires ParkedWait(s) && !CanProgress(s) && u in s.threads && InWindow(s.threads[u], id)
    ensures !Owns(s.threads[u], id) && s.shared.pins.Count(id) > 0
  {
    NothingRuns(s, u);
    assert StillWaits(s.shared, s.threads[u]);
    hide CanProgress, ParkedWait;
  }

  /** Where nothing can move, a sandbox that a worker waits for is held up by a job without a worker. */
  lemma {:induction false} StuckIsHeldUp(s: State, t: Tid)
    requires Inv(s) && !CanProgress(s) && t in Occupied(s.threads)
    ensures WaitsFor(s.threads[t], s.threads[t].id) && HeldUp(s, s.threads[t].id)
  {
    NothingRuns(s, t);
    assert s.threads[t].AwaitingPin? && StillWaits(s.shared, s.threads[t]);
    var id := s.threads[t].id;
    var u :| u in s.threads && InWindow(s.threads[u], id);
    StuckWindow(s, u, id);
    StuckHolderWaits(s, id);
    hide CanProgress, Inv;
    forall v | v in s.threads ensures !Owns(s.threads[v], id) {
      if Owns(s.threads[v], id) {
        StuckWindow(s, v, id);
      }
    }
  }

  /**
   In every reachable state with an unfinished thread some thread has a step that is not a timeout,
   unless the workers of the default executor are starved.
   */
  lemma {:induction false} NoDeadlockUnlessStarving(states: seq<State>, actions: seq<Action>, k: nat, t: Tid)
    requires IsExecution(states, actions) && k < |states|
    requires t in states[k].threads && !Finished(states[k].threads[t])
    ensures CanProgress(states[k]) || Starving(states[k])
  {
    var s := states[k];
    ExecutionKeepsInv(states, actions, k);
    PoolAlwaysSound(states, actions, k);
    UnfinishedMovesOrWaits(s, t);
    if !CanProgress(s) {
      var head := s.queue[0];
      assert head in s.queue;
      assert |Occupied(s.threads)| >= s.config.workers by {
        assert IsProgress(StartJob(head)) && !Enabled(s, StartJob(head));
      }
      forall u | u in Occupied(s.threads) ensures WaitsFor(s.threads[u], s.threads[u].id) && HeldUp(s, s.threads[u].id) {
        StuckIsHeldUp(s, u);
      }
    }
  }

  /** And with no more jobs, waiting or running, than there are workers, there is no deadlock. */
  lemma {:induction false} NoDeadlock(states: seq<State>, actions: seq<Action>, k: nat, t: Tid)
    requires IsExecution(states, actions) && k < |states|
    requires |InPool(states[k].threads)| <= states[k].config.workers
    requires t in states[k].threads && !Finished(states[k].threads[t])
    ensures CanProgress(states[k])
  {
    NoDeadlockUnlessStarving(states, actions, k, t);
    PoolAlwaysSound(states, actions, k);
    if Starving(states[k]) {
      StarvingTakesOneMore(states[k]);
    }
  }
}
