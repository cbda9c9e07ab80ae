/** What every reachable state of the provisioner keeps. */
module LifecycleInvariant {
  import opened Counting
  import opened Wrappers
  import opened OperationPins
  import opened Inventory
  import opened Lifecycle

  function Holders(threads: map<Tid, Thread>, id: SandboxId): set<Tid> {
    set t | t in threads && Holds(threads[t], id)
  }

  function Creators(threads: map<Tid, Thread>): set<Tid> {
    set t | t in threads && InFlight(threads[t])
  }

  // ---- The invariant -----------------------------------------------------------------------------

  /** The pins and the gate count exactly the threads they should. */
  ghost predicate CountsExact(s: State) {
    && (forall id {:trigger Holders(s.threads, id)} {:trigger s.shared.pins.Count(id)} ::
          s.shared.pins.Count(id) == |Holders(s.threads, id)|)
    && s.shared.gate.creates == |Creators(s.threads)|
  }

  /** Every deletion mark belongs to some deleter that will call `end_delete`. */
  ghost predicate MarksBacked(s: State) {
    forall id :: id in s.shared.pins.deleting ==> exists t :: t in s.threads && InWindow(s.threads[t], id)
  }

  /** No lost wake-up: what a parked thread waits for has not happened yet. */
  predicate StillWaits(sh: Shared, th: Thread) {
    match th
    case AwaitingPin(_, id) => id in sh.pins.deleting
    case AwaitingDrain(d) => sh.pins.Count(d.id) > 0
    case AwaitingGate => sh.gate.creates != 0
    case _ => true
  }

  ghost predicate ParkedWait(s: State) {
    forall t :: t in s.threads ==> StillWaits(s.shared, s.threads[t])
  }

  /** Once a quiescing caller has begun the gate is shut, and once it is past it no creation is in flight. */
  predicate GateRespected(sh: Shared, th: Thread) {
    && (BegunQuiescing(th) ==> sh.gate.started)
    && (PastGate(th) ==> sh.gate.creates == 0)
    && (th == Quiesced(true) ==> sh.catalog.records == map[])
  }

  ghost predicate Gated(s: State) {
    forall t :: t in s.threads ==> GateRespected(s.shared, s.threads[t])
  }

  predicate Issued(sh: Shared, g: Option<Generation>) {
    g.Some? ==> g.value < sh.catalog.next
  }

  /** The generation a thread carries was issued; the reaper and quiescing name one issued before they looked. */
  predicate Dated(sh: Shared, th: Thread) {
    && (th.Sending? || th.Resolving? || th.Looking? || th.Marking? || th.Reporting? ==> th.generation < sh.catalog.next)
    && (th.Releasing? || th.Closing? ==> Issued(sh, th.found))
    && (HasDeletion(th) ==>
          && th.d.born <= sh.catalog.next
          && (!th.d.who.Api? ==> th.d.fence.Named? && th.d.fence.generation < th.d.born)
          && (th.Queued? ==> th.d.who.QuiesceWorker?))
  }

  ghost predicate Generations(s: State) {
    && (forall id :: id in s.shared.catalog.records ==> s.shared.catalog.records[id].generation < s.shared.catalog.next)
    && (forall i, j | i in s.shared.catalog.records && j in s.shared.catalog.records ::
          s.shared.catalog.records[i].generation == s.shared.catalog.records[j].generation ==> i == j)
    && (forall id :: id in s.shared.activity ==>
          s.shared.activity[id].generation.Some? && Issued(s.shared, s.shared.activity[id].generation))
    && (forall t :: t in s.threads ==> Dated(s.shared, s.threads[t]))
  }

  ghost predicate IsWorker(th: Thread, owner: Tid) {
    th.Done? || (HasDeletion(th) && th.d.who == QuiesceWorker(owner))
  }

  /** The workers a quiescing caller joins are its own, and they are there. */
  ghost predicate Crewed(s: State) {
    && 1 <= s.config.deleteConcurrency
    && forall t, w :: t in s.threads && s.threads[t].Joining? && w in s.threads[t].workers ==>
         w in s.threads && IsWorker(s.threads[w], t)
  }

  ghost predicate Inv(s: State) {
    && CountsExact(s)
    && MarksBacked(s)
    && ParkedWait(s)
    && Gated(s)
    && Generations(s)
    && Crewed(s)
  }

  // ---- Counting ----------------------------------------------------------------------------------

  /** Waking changes neither who holds a pin nor who is creating. */
  lemma {:induction false} WakingKeepsCounts(threads: map<Tid, Thread>, p: bool, g: bool, id: SandboxId)
    ensures Holders(WakeAll(threads, p, g), id) == Holders(threads, id)
    ensures Creators(WakeAll(threads, p, g)) == Creators(threads)
  {
  }

  /** Counts after one thread moved on and others were woken. */
  lemma {:induction false} CountsAfterMove(threads: map<Tid, Thread>, t: Tid, th: Thread, p: bool, g: bool, id: SandboxId)
    requires t in threads
    ensures
      var after := WakeAll(threads[t := th], p, g);
      && |Holders(after, id)| == |Holders(threads, id)|
           - (if Holds(threads[t], id) then 1 else 0) + (if Holds(th, id) then 1 else 0)
      && |Creators(after)| == |Creators(threads)|
           - (if InFlight(threads[t]) then 1 else 0) + (if InFlight(th) then 1 else 0)
  {
    var moved := threads[t := th];
    WakingKeepsCounts(moved, p, g, id);
    SameButOne(Holders(threads, id), Holders(moved, id), t);
    SameButOne(Creators(threads), Creators(moved), t);
  }

  /** A holder is counted, so nothing it does can take the count below zero. */
  lemma {:induction false} HolderIsCounted(s: State, t: Tid, id: SandboxId)
    requires CountsExact(s) && t in s.threads
    ensures Holds(s.threads[t], id) ==> s.shared.pins.Count(id) >= 1
    ensures InFlight(s.threads[t]) ==> s.shared.gate.creates >= 1
  {
    if Holds(s.threads[t], id) {
      assert {t} <= Holders(s.threads, id);
      SubsetCount({t}, Holders(s.threads, id));
    }
    if InFlight(s.threads[t]) {
      SubsetCount({t}, Creators(s.threads));
    }
  }

  // ---- What one critical section does, thread by thread ------------------------------------------

  lemma {:induction false} LocalCounts(config: Config, sh: Shared, th: Thread, fails: bool, id: SandboxId)
    requires Runnable(th)
    requires Holds(th, id) ==> sh.pins.Count(id) >= 1
    ensures
      var e := LocalStep(config, sh, th, fails);
      && e.shared.pins.Count(id) == sh.pins.Count(id)
           - (if Holds(th, id) then 1 else 0) + (if Holds(e.thread, id) then 1 else 0)
      && e.shared.gate.creates == sh.gate.creates
           - (if InFlight(th) then 1 else 0) + (if InFlight(e.thread) then 1 else 0)
  {
  }

  lemma {:induction false} LocalMarks(config: Config, sh: Shared, th: Thread, fails: bool, id: SandboxId)
    requires Runnable(th)
    ensures
      var e := LocalStep(config, sh, th, fails);
      && (id in e.shared.pins.deleting ==>
            InWindow(e.thread, id) || (id in sh.pins.deleting && !InWindow(th, id)))
      && (id in e.shared.pins.deleting && id !in sh.pins.deleting ==> InWindow(e.thread, id))
      && (id in sh.pins.deleting && id !in e.shared.pins.deleting ==> e.pinsNotified && InWindow(th, id))
  {
  }

  lemma {:induction false} LocalParked(config: Config, sh: Shared, th: Thread, fails: bool, other: Thread)
    requires Runnable(th)
    requires th.Releasing? ==> sh.pins.Count(th.id) >= 1
    requires sh.gate.creates >= 0
    ensures
      var e := LocalStep(config, sh, th, fails);
      && StillWaits(e.shared, e.thread)
      && Woken(e.thread, e.pinsNotified, e.gateNotified) == e.thread
      && (StillWaits(sh, other) ==> StillWaits(e.shared, Woken(other, e.pinsNotified, e.gateNotified)))
  {
  }

  lemma {:induction false} LocalGate(config: Config, sh: Shared, th: Thread, fails: bool, other: Thread)
    requires Runnable(th)
    requires InFlight(th) ==> sh.gate.creates >= 1
    requires th.Calling? ==> sh.pins.Count(th.id) >= 1
    requires GateRespected(sh, th) && GateRespected(sh, other)
    ensures
      var e := LocalStep(config, sh, th, fails);
      GateRespected(e.shared, e.thread) && GateRespected(e.shared, Woken(other, e.pinsNotified, e.gateNotified))
  {
  }

  lemma {:induction false} LocalDates(config: Config, sh: Shared, th: Thread, fails: bool, other: Thread)
    requires Runnable(th)
    requires Dated(sh, th) && Dated(sh, other)
    requires forall id :: id in sh.catalog.records ==> sh.catalog.records[id].generation < sh.catalog.next
    ensures
      var e := LocalStep(config, sh, th, fails);
      && sh.catalog.next <= e.shared.catalog.next
      && Dated(e.shared, e.thread) && Dated(e.shared, Woken(other, e.pinsNotified, e.gateNotified))
  {
    LocalOwnDate(config, sh, th, fails);
  }

  lemma {:induction false} LocalOwnDate(config: Config, sh: Shared, th: Thread, fails: bool)
    requires Runnable(th) && Dated(sh, th)
    requires forall id :: id in sh.catalog.records ==> sh.catalog.records[id].generation < sh.catalog.next
    ensures
      var e := LocalStep(config, sh, th, fails);
      sh.catalog.next <= e.shared.catalog.next && Dated(e.shared, e.thread)
  {
  }

  /** The inventory changes by creating under a fresh generation or by dropping one record. */
  lemma {:induction false} LocalCatalog(config: Config, sh: Shared, th: Thread, fails: bool)
    requires Runnable(th)
    ensures
      var before, after := sh.catalog, LocalStep(config, sh, th, fails).shared.catalog;
      || after == before
      || (th.Calling? && th.op.Create? && th.id !in before.records
          && after == Catalog(before.records[th.id := Record(before.next, th.op.workdir)], before.next + 1))
      || ((th.Owning? || th.Condemned?) && !before.Mismatch(th.d.id, th.d.fence)
          && after == before.(records := before.records - {th.d.id}))
  {
  }

  lemma {:induction false} LocalActivity(config: Config, sh: Shared, th: Thread, fails: bool, id: SandboxId)
    requires Runnable(th)
    ensures
      var before, after := sh.activity, LocalStep(config, sh, th, fails).shared.activity;
      && ((th.Marking? || th.Reporting?) && th.id == id ==>
            id in after && after[id] == Stamp(Some(th.generation), sh.now))
      && (!((th.Marking? || th.Reporting?) && th.id == id) && id in after ==> id in before && after[id] == before[id])
  {
  }

  // ---- Preservation by a step of one thread ------------------------------------------------------

  lemma {:induction false} StepKeepsCounts(s: State, t: Tid, fails: bool)
    requires Inv(s) && Enabled(s, Step(t, fails))
    ensures CountsExact(After(s, Step(t, fails)))
  {
    var s' := After(s, Step(t, fails));
    var th := s.threads[t];
    var e := LocalStep(s.config, s.shared, th, fails);
    hide LocalStep, Woken;
    forall id ensures s'.shared.pins.Count(id) == |Holders(s'.threads, id)| {
      CountsAfterMove(s.threads, t, e.thread, e.pinsNotified, e.gateNotified, id);
      HolderIsCounted(s, t, id);
      LocalCounts(s.config, s.shared, th, fails, id);
      assert s.shared.pins.Count(id) == |Holders(s.threads, id)|;
    }
    CountsAfterMove(s.threads, t, e.thread, e.pinsNotified, e.gateNotified, "");
    HolderIsCounted(s, t, "");
    LocalCounts(s.config, s.shared, th, fails, "");
  }

  lemma {:induction false} AfterStep(s: State, t: Tid, fails: bool, u: Tid)
    requires Enabled(s, Step(t, fails)) && u in s.threads
    ensures
      var s', e := After(s, Step(t, fails)), LocalStep(s.config, s.shared, s.threads[t], fails);
      && s'.shared == e.shared && u in s'.threads
      && s'.threads[u] == Woken(if u == t then e.thread else s.threads[u], e.pinsNotified, e.gateNotified)
  {
    hide LocalStep;
  }

  lemma {:induction false} WakingKeepsWindow(th: Thread, pinsNotified: bool, gateNotified: bool, id: SandboxId)
    ensures InWindow(Woken(th, pinsNotified, gateNotified), id) <==> InWindow(th, id)
  {
  }

  lemma {:induction false} StepKeepsMarks(s: State, t: Tid, fails: bool)
    requires Inv(s) && Enabled(s, Step(t, fails))
    ensures MarksBacked(After(s, Step(t, fails)))
  {
    assert MarksBacked(s) && Runnable(s.threads[t]);
    hide Inv, Enabled, LocalStep, After, InWindow, Woken;
    var s' := After(s, Step(t, fails));
    var e := LocalStep(s.config, s.shared, s.threads[t], fails);
    AfterStep(s, t, fails, t);
    forall id | id in s'.shared.pins.deleting
      ensures exists u :: u in s'.threads && InWindow(s'.threads[u], id)
    {
      LocalMarks(s.config, s.shared, s.threads[t], fails, id);
      if InWindow(e.thread, id) {
        WakingKeepsWindow(e.thread, e.pinsNotified, e.gateNotified, id);
        assert InWindow(s'.threads[t], id);
      } else {
        var u :| u in s.threads && InWindow(s.threads[u], id);
        AfterStep(s, t, fails, u);
        WakingKeepsWindow(s.threads[u], e.pinsNotified, e.gateNotified, id);
        assert InWindow(s'.threads[u], id);
      }
    }
  }

  lemma {:induction false} StepKeepsThreads(s: State, t: Tid, fails: bool)
    requires Inv(s) && Enabled(s, Step(t, fails))
    ensures
      var s' := After(s, Step(t, fails));
      forall u :: u in s'.threads ==>
        && StillWaits(s'.shared, s'.threads[u])
        && GateRespected(s'.shared, s'.threads[u])
        && Dated(s'.shared, s'.threads[u])
  {
    var s' := After(s, Step(t, fails));
    var th := s.threads[t];
    var e := LocalStep(s.config, s.shared, th, fails);
    assert GateRespected(s.shared, th) && Dated(s.shared, th);
    HolderIsCounted(s, t, if th.Releasing? || th.Calling? then th.id else "");
    hide LocalStep, StillWaits, GateRespected, Dated;
    forall u | u in s'.threads
      ensures StillWaits(s'.shared, s'.threads[u]) && GateRespected(s'.shared, s'.threads[u]) && Dated(s'.shared, s'.threads[u])
    {
      var other := s.threads[u];
      assert StillWaits(s.shared, other) && GateRespected(s.shared, other) && Dated(s.shared, other);
      LocalParked(s.config, s.shared, th, fails, other);
      LocalGate(s.config, s.shared, th, fails, other);
      LocalDates(s.config, s.shared, th, fails, other);
    }
  }

  lemma {:induction false} StepKeepsGenerations(s: State, t: Tid, fails: bool)
    requires Inv(s) && Enabled(s, Step(t, fails))
    ensures Generations(After(s, Step(t, fails)))
  {
    var s' := After(s, Step(t, fails));
    StepKeepsThreads(s, t, fails);
    assert Dated(s.shared, s.threads[t]);
    LocalCatalog(s.config, s.shared, s.threads[t], fails);
    LocalDates(s.config, s.shared, s.threads[t], fails, Done);
    hide LocalStep, Dated;
    forall id | id in s'.shared.activity
      ensures s'.shared.activity[id].generation.Some? && Issued(s'.shared, s'.shared.activity[id].generation)
    {
      LocalActivity(s.config, s.shared, s.threads[t], fails, id);
      assert Dated(s.shared, s.threads[t]);
    }
  }

  lemma {:induction false} StepKeepsCrews(s: State, t: Tid, fails: bool)
    requires Inv(s) && Enabled(s, Step(t, fails))
    ensures Crewed(After(s, Step(t, fails)))
  {
    var s' := After(s, Step(t, fails));
    var e := LocalStep(s.config, s.shared, s.threads[t], fails);
    assert Crewed(s);
    LocalCrew(s.config, s.shared, s.threads[t], fails);
    forall u, w | u in s'.threads && s'.threads[u].Joining? && w in s'.threads[u].workers
      ensures w in s'.threads && IsWorker(s'.threads[w], u)
    {
      JoiningIsKept(s, t, fails, u);
      WokenWorker(s.threads[w], e.pinsNotified, e.gateNotified, u);
      WokenWorker(e.thread, e.pinsNotified, e.gateNotified, u);
    }
  }

  lemma {:induction false} JoiningIsKept(s: State, t: Tid, fails: bool, u: Tid)
    requires Enabled(s, Step(t, fails))
    requires var s' := After(s, Step(t, fails)); u in s'.threads && s'.threads[u].Joining?
    ensures u in s.threads && s.threads[u] == After(s, Step(t, fails)).threads[u]
  {
    LocalCrew(s.config, s.shared, s.threads[t], fails);
  }

  lemma {:induction false} WokenWorker(th: Thread, p: bool, g: bool, owner: Tid)
    ensures IsWorker(th, owner) ==> IsWorker(Woken(th, p, g), owner)
  {
  }

  /** A deleter keeps its deletion until it is done, and nobody starts to join in a step of its own. */
  lemma {:induction false} LocalCrew(config: Config, sh: Shared, th: Thread, fails: bool)
    requires Runnable(th)
    ensures
      var e := LocalStep(config, sh, th, fails);
      && !Woken(e.thread, e.pinsNotified, e.gateNotified).Joining?
      && (HasDeletion(th) ==> e.thread.Done? || (HasDeletion(e.thread) && e.thread.d == th.d))
  {
  }

  // ---- Preservation by the other actions ---------------------------------------------------------

  /** Threads that hold nothing and are in nobody's way may come, go and change into one another. */
  predicate Inert(th: Thread) {
    && !(th.Discovering? || th.Calling? || th.Sending? || th.Resolving? || th.Looking? || th.Marking? || th.Releasing?)
    && !InFlight(th)
    && !(th.Draining? || Deletes(th))
    && !Parked(th)
  }

  /** Both are harmless, or they hold the same pin and nothing else. */
  predicate SameStanding(before: Thread, after: Thread) {
    || (Inert(before) && Inert(after))
    || (before.Discovering? && after == Calling(Proxy, before.id))
    || (before.Sending? && after == Resolving(before.id, before.generation))
    || (before.Resolving? && after == Looking(before.id, before.generation))
  }

  /** The thread is new or changed, of the same standing before and after, and as it should be. */
  ghost predicate ChangesInertly(s: State, s': State, t: Tid)
    requires t in s'.threads
  {
    && SameStanding(if t in s.threads then s.threads[t] else Done, s'.threads[t])
    && GateRespected(s'.shared, s'.threads[t])
    && Dated(s'.shared, s'.threads[t])
  }

  ghost predicate OnlyInertChanges(s: State, s': State) {
    && s'.shared.(now := s.shared.now) == s.shared
    && s.shared.now <= s'.shared.now
    && s'.config == s.config
    && s.threads.Keys <= s'.threads.Keys
    && forall t :: t in s'.threads ==>
         (t in s.threads && s'.threads[t] == s.threads[t]) || ChangesInertly(s, s', t)
  }

  lemma {:induction false} InertChangesKeepInv(s: State, s': State)
    requires Inv(s) && OnlyInertChanges(s, s') && Crewed(s')
    ensures Inv(s')
  {
    InertChangesKeepCounts(s, s');
    hide Inert, SameStanding;
    forall t | t in s'.threads ensures GateRespected(s'.shared, s'.threads[t]) && Dated(s'.shared, s'.threads[t]) {
      if t in s.threads {
        assert GateRespected(s.shared, s.threads[t]) && Dated(s.shared, s.threads[t]);
      }
    }
  }

  lemma {:induction false} SameStandingKeeps(before: Thread, after: Thread, sh: Shared, id: SandboxId)
    requires SameStanding(before, after)
    ensures (Holds(after, id) <==> Holds(before, id)) && (InFlight(after) <==> InFlight(before))
    ensures InWindow(before, id) ==> InWindow(after, id)
    ensures StillWaits(sh, after)
  {
  }

  lemma {:induction false} ChangedThread(s: State, s': State, t: Tid, id: SandboxId)
    requires OnlyInertChanges(s, s') && t in s'.threads
    ensures
      var before := if t in s.threads then s.threads[t] else Done;
      && (Holds(s'.threads[t], id) <==> Holds(before, id)) && (InFlight(s'.threads[t]) <==> InFlight(before))
      && (InWindow(before, id) ==> InWindow(s'.threads[t], id))
      && (StillWaits(s.shared, before) ==> StillWaits(s'.shared, s'.threads[t]))
  {
    hide GateRespected, Dated, SameStanding, Holds, InFlight, InWindow;
    if t !in s.threads || s'.threads[t] != s.threads[t] {
      SameStandingKeeps(if t in s.threads then s.threads[t] else Done, s'.threads[t], s'.shared, id);
    }
  }

  lemma {:induction false} InertChangesKeepCounts(s: State, s': State)
    requires CountsExact(s) && MarksBacked(s) && ParkedWait(s) && OnlyInertChanges(s, s')
    ensures CountsExact(s') && MarksBacked(s') && ParkedWait(s')
  {
    hide ChangesInertly, Holds, InFlight, InWindow, StillWaits;
    DoneIsIdle(s.shared);
    forall id ensures Holders(s'.threads, id) == Holders(s.threads, id) {
      forall t | t in s'.threads ensures t in Holders(s'.threads, id) <==> t in Holders(s.threads, id) {
        ChangedThread(s, s', t, id);
      }
    }
    forall t | t in s'.threads ensures t in Creators(s'.threads) <==> t in Creators(s.threads) {
      ChangedThread(s, s', t, "");
    }
    assert Creators(s'.threads) == Creators(s.threads);
    forall id | id in s'.shared.pins.deleting
      ensures exists t :: t in s'.threads && InWindow(s'.threads[t], id)
    {
      var t :| t in s.threads && InWindow(s.threads[t], id);
      ChangedThread(s, s', t, id);
    }
    forall t | t in s'.threads ensures StillWaits(s'.shared, s'.threads[t]) {
      ChangedThread(s, s', t, "");
    }
  }

  lemma {:induction false} DoneIsIdle(sh: Shared)
    ensures !InFlight(Done) && StillWaits(sh, Done) && forall id :: !Holds(Done, id)
  {
  }

  lemma {:induction false} InitialInv(s: State)
    requires Initial(s)
    ensures Inv(s)
  {
    forall id ensures Holders(s.threads, id) == {} {
    }
    assert Creators(s.threads) == {};
  }

  lemma {:induction false} ActionKeepsInv(s: State, a: Action)
    requires Inv(s) && Enabled(s, a)
    ensures Inv(After(s, a))
  {
    match a
    case Step(t, fails) =>
      StepKeepsCounts(s, t, fails);
      StepKeepsMarks(s, t, fails);
      StepKeepsThreads(s, t, fails);
      StepKeepsGenerations(s, t, fails);
      StepKeepsCrews(s, t, fails);
    case ListAll(t, workers) => ListAllKeepsInv(s, t, workers);
    case _ => OtherActionKeepsInv(s, a);
  }

  lemma {:induction false} OtherActionKeepsInv(s: State, a: Action)
    requires Inv(s) && Enabled(s, a) && !a.Step? && !a.ListAll?
    ensures Inv(After(s, a))
  {
    OtherActionIsInert(s, a);
    OtherActionKeepsCrews(s, a);
    InertChangesKeepInv(s, After(s, a));
  }

  lemma {:induction false} OtherActionIsInert(s: State, a: Action)
    requires Gated(s) && Generations(s) && Enabled(s, a) && !a.Step? && !a.ListAll?
    ensures OnlyInertChanges(s, After(s, a))
  {
    hide *;
    match a
    case Tick(elapsed) => TickIsInert(s, elapsed);
    case Spawn(t, th) => SpawnIsInert(s, t, th);
    case Resolve(t) => ResolveIsInert(s, t);
    case StartJob(t) => StartJobIsInert(s, t);
    case StartWorker(t) => StartWorkerIsInert(s, t);
    case Join(t) => JoinIsInert(s, t);
    case Abandon(t) => AbandonIsInert(s, t);
  }

  lemma {:induction false} TickIsInert(s: State, elapsed: nat)
    ensures Enabled(s, Tick(elapsed)) && OnlyInertChanges(s, After(s, Tick(elapsed)))
  {
  }

  lemma {:induction false} SpawnIsInert(s: State, t: Tid, th: Thread)
    requires Generations(s) && Enabled(s, Spawn(t, th))
    ensures OnlyInertChanges(s, After(s, Spawn(t, th)))
  {
    SpawnIsDated(s, th);
    hide Generations, Dated, GateRespected, MaySpawn;
    InertMove(s, After(s, Spawn(t, th)), t, th);
  }

  lemma {:induction false} StartWorkerIsInert(s: State, t: Tid)
    requires Generations(s) && Enabled(s, StartWorker(t))
    ensures OnlyInertChanges(s, After(s, StartWorker(t)))
  {
    assert Dated(s.shared, s.threads[t]);
    hide Generations, Busy;
    InertMove(s, After(s, StartWorker(t)), t, Deleting(s.threads[t].d));
  }

  lemma {:induction false} JoinIsInert(s: State, t: Tid)
    requires Gated(s) && Enabled(s, Join(t))
    ensures OnlyInertChanges(s, After(s, Join(t)))
  {
    assert GateRespected(s.shared, s.threads[t]);
    hide Gated;
    InertMove(s, After(s, Join(t)), t, Listing);
  }

  lemma {:induction false} ResolveIsInert(s: State, t: Tid)
    requires Gated(s) && Generations(s) && Enabled(s, Resolve(t))
    ensures OnlyInertChanges(s, After(s, Resolve(t)))
  {
    var th := s.threads[t];
    var next := Resolving(th.id, th.generation);
    assert Dated(s.shared, th);
    assert SameStanding(th, next) && Dated(s.shared, next) && GateRespected(s.shared, next);
    hide Gated, Generations, Dated, GateRespected, SameStanding;
    InertMove(s, After(s, Resolve(t)), t, next);
  }

  lemma {:induction false} StartJobIsInert(s: State, t: Tid)
    requires Gated(s) && Generations(s) && Enabled(s, StartJob(t))
    ensures OnlyInertChanges(s, After(s, StartJob(t)))
  {
    var th := s.threads[t];
    assert Dated(s.shared, th);
    assert SameStanding(th, Started(th)) && Dated(s.shared, Started(th)) && GateRespected(s.shared, Started(th));
    hide Gated, Generations, Dated, GateRespected, SameStanding, Started, Occupied;
    InertMove(s, After(s, StartJob(t)), t, Started(th));
  }

  lemma {:induction false} InertMove(s: State, s': State, t: Tid, th: Thread)
    requires s' == s.(threads := s.threads[t := th], queue := s'.queue)
    requires GateRespected(s.shared, th) && Dated(s.shared, th)
    requires SameStanding(if t in s.threads then s.threads[t] else Done, th)
    ensures OnlyInertChanges(s, s')
  {
    assert ChangesInertly(s, s', t);
  }

  lemma {:induction false} AbandonIsInert(s: State, t: Tid)
    requires Enabled(s, Abandon(t))
    ensures OnlyInertChanges(s, After(s, Abandon(t)))
  {
    var s' := After(s, Abandon(t));
    forall u | u in s'.threads && s'.threads[u] != s.threads[u] ensures ChangesInertly(s, s', u) {
    }
  }

  lemma {:induction false} SpawnIsDated(s: State, th: Thread)
    requires Generations(s) && MaySpawn(s, th)
    ensures Inert(th) && Dated(s.shared, th) && GateRespected(s.shared, th)
  {
    if th.Deleting? && th.d.who.Reaper? {
      assert s.shared.activity[th.d.id].generation.Some?;
    }
  }

  lemma {:induction false} OtherActionKeepsCrews(s: State, a: Action)
    requires Crewed(s) && Enabled(s, a) && !a.Step? && !a.ListAll?
    ensures Crewed(After(s, a))
  {
    var s' := After(s, a);
    forall t, w | t in s'.threads && s'.threads[t].Joining? && w in s'.threads[t].workers
      ensures w in s'.threads && IsWorker(s'.threads[w], t)
    {
      assert t in s.threads && s.threads[t] == s'.threads[t];
      assert w in s.threads && IsWorker(s.threads[w], t);
    }
  }

  lemma {:induction false} ListAllKeepsInv(s: State, t: Tid, workers: map<Tid, SandboxId>)
    requires Inv(s) && Enabled(s, ListAll(t, workers))
    ensures Inv(After(s, ListAll(t, workers)))
  {
    ListAllIsInert(s, t, workers);
    ListAllKeepsCrews(s, t, workers);
    InertChangesKeepInv(s, After(s, ListAll(t, workers)));
  }

  lemma {:induction false} ListAllIsInert(s: State, t: Tid, workers: map<Tid, SandboxId>)
    requires Gated(s) && Generations(s) && Enabled(s, ListAll(t, workers))
    ensures OnlyInertChanges(s, After(s, ListAll(t, workers)))
  {
    var s' := After(s, ListAll(t, workers));
    assert s'.shared == s.shared && s.threads.Keys <= s'.threads.Keys && s'.config == s.config;
    hide ChangesInertly, Gated, Generations, Enabled, After;
    forall u | u in s'.threads && (u !in s.threads || s'.threads[u] != s.threads[u]) ensures ChangesInertly(s, s', u) {
      ListedInertly(s, t, workers, u);
    }
  }

  lemma {:induction false} ListerIsListing(s: State, t: Tid, workers: map<Tid, SandboxId>)
    requires Gated(s) && Enabled(s, ListAll(t, workers))
    ensures t in s.threads && s.threads[t] == Listing && GateRespected(s.shared, Listing) && QueuesListing(s, workers)
    ensures After(s, ListAll(t, workers)).shared == s.shared
  {
    hide QueuesListing;
  }

  lemma {:induction false} ListedInertly(s: State, t: Tid, workers: map<Tid, SandboxId>, u: Tid)
    requires Gated(s) && Generations(s) && Enabled(s, ListAll(t, workers)) && u in After(s, ListAll(t, workers)).threads
    requires u !in s.threads || After(s, ListAll(t, workers)).threads[u] != s.threads[u]
    ensures ChangesInertly(s, After(s, ListAll(t, workers)), u)
  {
    hide After, QueuedWorkers, Enabled, Gated, Generations, QueuesListing, Inert, Dated, GateRespected;
    ListerIsListing(s, t, workers);
    ListedThread(s, t, workers, u);
    ListerIsDated(s.shared, workers.Keys);
    if u != t {
      NewWorkerIsDated(s, t, workers, u);
    }
  }

  lemma {:induction false} ListerIsDated(sh: Shared, workers: set<Tid>)
    requires GateRespected(sh, Listing)
    ensures Inert(Done) && Inert(Listing) && Inert(Joining(workers)) && Inert(Quiesced(true))
    ensures GateRespected(sh, Joining(workers)) && (sh.catalog.records == map[] ==> GateRespected(sh, Quiesced(true)))
    ensures Dated(sh, Joining(workers)) && Dated(sh, Quiesced(true))
  {
  }

  /** A listing changes the thread that made it, and adds its workers if there is anything to delete. */
  lemma {:induction false} ListedThread(s: State, t: Tid, workers: map<Tid, SandboxId>, u: Tid)
    requires Enabled(s, ListAll(t, workers)) && u in After(s, ListAll(t, workers)).threads
    requires u !in s.threads || After(s, ListAll(t, workers)).threads[u] != s.threads[u]
    ensures
      var s' := After(s, ListAll(t, workers));
      if u == t then s'.threads[u] == if s.shared.catalog.records == map[] then Quiesced(true) else Joining(workers.Keys)
      else u in workers && u !in s.threads && s'.threads[u] == QueuedWorkers(s, t, workers)[u]
  {
  }

  lemma {:induction false} NewWorkerIsDated(s: State, t: Tid, workers: map<Tid, SandboxId>, w: Tid)
    requires Generations(s) && QueuesListing(s, workers) && w in workers
    ensures
      var th := QueuedWorkers(s, t, workers)[w];
      Inert(th) && GateRespected(s.shared, th) && Dated(s.shared, th)
  {
  }

  lemma {:induction false} ListAllKeepsCrews(s: State, t: Tid, workers: map<Tid, SandboxId>)
    requires Crewed(s) && Enabled(s, ListAll(t, workers))
    ensures Crewed(After(s, ListAll(t, workers)))
  {
    var s' := After(s, ListAll(t, workers));
    forall u, w | u in s'.threads && s'.threads[u].Joining? && w in s'.threads[u].workers
      ensures w in s'.threads && IsWorker(s'.threads[w], u)
    {
      if u != t {
        assert u in s.threads && s.threads[u] == s'.threads[u];
        assert w in s.threads && IsWorker(s.threads[w], u);
      }
    }
  }

  /** Every state of every execution keeps the invariant. */
  lemma {:induction false} ExecutionKeepsInv(states: seq<State>, actions: seq<Action>, k: nat)
    requires IsExecution(states, actions) && k < |states|
    ensures Inv(states[k])
  {
    if k == 0 {
      InitialInv(states[0]);
    } else {
      ExecutionKeepsInv(states, actions, k - 1);
      assert Enabled(states[k - 1], actions[k - 1]);
      ActionKeepsInv(states[k - 1], actions[k - 1]);
    }
  }
}
