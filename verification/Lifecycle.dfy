/**
 The provisioner as a transition system: any number of request handlers, reaper passes and
 quiescing callers interleave over the pins, the gate, the inventory and the activity table.

 A thread is the program point its handler has reached.  One step is one critical section of the
 source, so the shared objects change only by the functions proved of their classes.

 The blocking calls of a proxied request are jobs for the default executor of the event loop: a pool of
 `workers` threads that takes its jobs in the order of their submission.  A worker that waits for a pin
 stays taken.  While it is sent a request may need a job more, to look up the name of the host.
 */
module Lifecycle {
  import opened Wrappers
  import opened OperationPins
  import opened Inventory

  type Tid = nat

  /** The handlers that pin a sandbox.  `Lookup` stands for both get and touch: the same steps. */
  datatype Operation = Create(workdir: Option<string>) | Lookup | Proxy

  datatype Deleter = Api | Reaper | QuiesceWorker(owner: Tid)

  /** `born` is the generation counter when the fence was chosen; only proofs read it. */
  datatype Deletion = Deletion(who: Deleter, id: SandboxId, fence: Fence, born: Generation)

  datatype Thread =
    // Creating, looking up and proxying.  A proxied request is submitted for its pin, for its sandbox and for a name.
    | Submitted(id: SandboxId)
    | Admission(id: SandboxId, workdir: Option<string>)
    | Acquiring(op: Operation, id: SandboxId)
    | AwaitingPin(op: Operation, id: SandboxId)
    | Discovering(id: SandboxId)
    | Calling(op: Operation, id: SandboxId)
    | Sending(id: SandboxId, generation: Generation)
    | Resolving(id: SandboxId, generation: Generation)
    | Looking(id: SandboxId, generation: Generation)
    | Marking(op: Operation, id: SandboxId, generation: Generation)
    | Releasing(op: Operation, id: SandboxId, found: Option<Generation>)
    | Closing(id: SandboxId, found: Option<Generation>)
    | Reporting(id: SandboxId, generation: Generation)
    // Deleting on request, by the reaper or by a quiescing worker.
    | Queued(d: Deletion)
    | Deleting(d: Deletion)
    | Draining(d: Deletion)
    | AwaitingDrain(d: Deletion)
    | Owning(d: Deletion)
    | Condemned(d: Deletion, cutoff: int)
    | Dropping(d: Deletion)
    | Ending(d: Deletion, forget: bool)
    | Forgetting(d: Deletion)
    // Quiescing.
    | Quiescing
    | GateDraining
    | AwaitingGate
    | Listing
    | Joining(workers: set<Tid>)
    | Quiesced(ok: bool)
    | Done

  /** `pinned` records the last touch made under a pin; only proofs read it. */
  datatype Shared = Shared(
    pins: PinTable,
    gate: GateState,
    catalog: Catalog,
    activity: ActivityTable,
    now: int,
    pinned: map<SandboxId, int>)

  datatype Config = Config(idleTimeout: int, deleteConcurrency: nat, workers: nat)

  /** `queue` holds the jobs of the default executor that no worker has taken yet. */
  datatype State = State(config: Config, shared: Shared, threads: map<Tid, Thread>, queue: seq<Tid>)

  // ---- Program points -------------------------------------------------------------------------

  /** The thread holds a pin on the sandbox. */
  predicate Holds(th: Thread, id: SandboxId) {
    && (th.Discovering? || th.Calling? || th.Sending? || th.Resolving? || th.Looking? || th.Marking? || th.Releasing?)
    && th.id == id
  }

  /** A job of the default executor that waits for a worker. */
  predicate IsJob(th: Thread) {
    th.Submitted? || th.Discovering? || th.Resolving?
  }

  /** It holds a pin on the sandbox meanwhile. */
  predicate HoldsQueued(th: Thread, id: SandboxId) {
    IsJob(th) && Holds(th, id)
  }

  /** A job of the default executor that has a worker. */
  predicate HasWorker(th: Thread) {
    ((th.Acquiring? || th.AwaitingPin? || th.Calling?) && th.op.Proxy?) || th.Looking?
  }

  /** The worker is taken until the deletion of its sandbox is over. */
  predicate WaitsFor(th: Thread, id: SandboxId) {
    (th.Acquiring? || th.AwaitingPin?) && th.op.Proxy? && th.id == id
  }

  /** A creation past the gate and not yet through `release_create`. */
  predicate InFlight(th: Thread) {
    || ((th.Acquiring? || th.AwaitingPin? || th.Calling? || th.Marking? || th.Releasing?) && th.op.Create?)
    || th.Closing?
  }

  /** Between the marking of `begin_delete` and `end_delete`. */
  predicate InWindow(th: Thread, id: SandboxId) {
    (th.Draining? || th.AwaitingDrain? || Deletes(th)) && th.d.id == id
  }

  /** Between the return of `begin_delete` and `end_delete`, on some sandbox. */
  predicate Deletes(th: Thread) {
    th.Owning? || th.Condemned? || th.Dropping? || th.Ending?
  }

  predicate Owns(th: Thread, id: SandboxId) {
    Deletes(th) && th.d.id == id
  }

  predicate HasDeletion(th: Thread) {
    th.Queued? || th.Deleting? || th.Draining? || th.AwaitingDrain? || Deletes(th) || th.Forgetting?
  }

  predicate Parked(th: Thread) {
    th.AwaitingPin? || th.AwaitingDrain? || th.AwaitingGate?
  }

  predicate Finished(th: Thread) {
    th.Done? || th.Quiesced?
  }

  /** `SandboxQuiescenceGate.begin` has returned to this caller. */
  predicate PastGate(th: Thread) {
    th.Listing? || th.Joining? || (th.Quiesced? && th.ok)
  }

  predicate BegunQuiescing(th: Thread) {
    th.GateDraining? || th.AwaitingGate? || PastGate(th)
  }

  // ---- One critical section of one thread -------------------------------------------------------

  datatype Effect = Effect(shared: Shared, thread: Thread, pinsNotified: bool, gateNotified: bool)

  /** The thread has a step of its own, needing no other thread. */
  predicate Runnable(th: Thread) {
    !Parked(th) && !Finished(th) && !IsJob(th) && !th.Queued? && !th.Listing? && !th.Joining?
  }

  function Quiet(sh: Shared, th: Thread): Effect {
    Effect(sh, th, false, false)
  }

  /** `fails` makes a call out of the protocol fail: the backend, or the proxied request. */
  function LocalStep(config: Config, sh: Shared, th: Thread, fails: bool): Effect
    requires Runnable(th)
  {
    match th
    case Admission(id, workdir) =>
      if sh.gate.started then Quiet(sh, Done)
      else Quiet(sh.(gate := sh.gate.(creates := sh.gate.creates + 1)), Acquiring(Create(workdir), id))
    case Acquiring(op, id) =>
      if id in sh.pins.deleting then Quiet(sh, AwaitingPin(op, id))
      else Quiet(sh.(pins := sh.pins.Acquired(id)), if op.Proxy? then Discovering(id) else Calling(op, id))
    case Calling(op, id) =>
      if fails then Quiet(sh, Releasing(op, id, None))
      else if op.Create? then
        var (catalog, outcome) := sh.catalog.Created(id, op.workdir);
        Quiet(sh.(catalog := catalog),
              Releasing(op, id, if outcome.Returned? then Some(outcome.record.generation) else None))
      else if id !in sh.catalog.records then Quiet(sh, Releasing(op, id, None))
      else if op.Proxy? then Quiet(sh, Sending(id, sh.catalog.records[id].generation))
      else Quiet(sh, Marking(op, id, sh.catalog.records[id].generation))
    case Sending(id, generation) =>
      Quiet(sh, if fails then Releasing(Proxy, id, None) else Marking(Proxy, id, generation))
    case Looking(id, generation) =>
      Quiet(sh, if fails then Releasing(Proxy, id, None) else Sending(id, generation))
    case Marking(op, id, generation) =>
      Quiet(sh.(activity := Touched(sh.activity, id, Some(generation), sh.now), pinned := sh.pinned[id := sh.now]),
            Releasing(op, id, Some(generation)))
    case Releasing(op, id, found) =>
      Effect(sh.(pins := sh.pins.Released(id)),
             if op.Create? then Closing(id, found) else Done,
             sh.pins.ReleaseNotifies(id), false)
    case Closing(id, found) =>
      var gate := sh.gate.(creates := sh.gate.creates - 1);
      Effect(sh.(gate := gate), if found.Some? then Reporting(id, found.value) else Done, false, gate.creates == 0)
    case Reporting(id, generation) =>
      Quiet(sh.(activity := Touched(sh.activity, id, Some(generation), sh.now)), Done)

    case Deleting(d) => Quiet(sh.(pins := sh.pins.Marked(d.id)), Draining(d))
    case Draining(d) => Quiet(sh, if sh.pins.Count(d.id) == 0 then Owning(d) else AwaitingDrain(d))
    case Owning(d) =>
      if d.who.Reaper? then
        var cutoff := sh.now - config.idleTimeout;
        var generation := if d.fence.Named? then Some(d.fence.generation) else None;
        Quiet(sh, if StillExpired(sh.activity, d.id, generation, cutoff) then Condemned(d, cutoff) else Ending(d, false))
      else if fails || sh.catalog.Mismatch(d.id, d.fence) then Quiet(sh, Ending(d, false))
      else Quiet(sh.(catalog := sh.catalog.Deleted(d.id, d.fence)), Ending(d, true))
    case Condemned(d, _) =>
      if fails || sh.catalog.Mismatch(d.id, d.fence) then Quiet(sh, Ending(d, false))
      else Quiet(sh.(catalog := sh.catalog.Deleted(d.id, d.fence)), Dropping(d))
    case Dropping(d) => Quiet(sh.(activity := Forgotten(sh.activity, d.id, d.fence)), Ending(d, false))
    case Ending(d, forget) =>
      Effect(sh.(pins := sh.pins.Unmarked(d.id)), if forget then Forgetting(d) else Done, true, false)
    case Forgetting(d) => Quiet(sh.(activity := Forgotten(sh.activity, d.id, d.fence)), Done)

    case Quiescing => Quiet(sh.(gate := sh.gate.(started := true)), GateDraining)
    case GateDraining => Quiet(sh, if sh.gate.creates == 0 then Listing else AwaitingGate)
  }

  // ---- Interleaving ------------------------------------------------------------------------------

  function Woken(th: Thread, pinsNotified: bool, gateNotified: bool): Thread {
    match th
    case AwaitingPin(op, id) => if pinsNotified then Acquiring(op, id) else th
    case AwaitingDrain(d) => if pinsNotified then Draining(d) else th
    case AwaitingGate => if gateNotified then GateDraining else th
    case _ => th
  }

  function WakeAll(threads: map<Tid, Thread>, pinsNotified: bool, gateNotified: bool): map<Tid, Thread> {
    map t | t in threads :: Woken(threads[t], pinsNotified, gateNotified)
  }

  datatype Action =
    | Tick(elapsed: nat)
    | Spawn(tid: Tid, thread: Thread)
    | Step(tid: Tid, fails: bool)
    | Resolve(tid: Tid)
    | StartJob(tid: Tid)
    | StartWorker(tid: Tid)
    | ListAll(tid: Tid, workers: map<Tid, SandboxId>)
    | Join(tid: Tid)
    | Abandon(tid: Tid)

  /** The entry is one that a pass of the reaper collects now. */
  predicate IsCollected(s: State, d: Deletion) {
    && 0 < s.config.idleTimeout
    && Expired(s.shared.activity, d.id, s.shared.now - s.config.idleTimeout)
    && d.fence == (match s.shared.activity[d.id].generation case Some(g) => Named(g) case None => Unfenced)
  }

  /** What a new request, or a new pass of the reaper over one expired entry, may start with. */
  predicate MaySpawn(s: State, th: Thread) {
    match th
    case Admission(_, _) => true
    case Submitted(_) => true
    case Acquiring(op, _) => op.Lookup?
    case Quiescing => true
    case Deleting(d) =>
      && d.born == s.shared.catalog.next
      && (d.who.Api? || (d.who.Reaper? && IsCollected(s, d)))
    case _ => false
  }

  /** The requests whose jobs have a worker of the default executor. */
  function Occupied(threads: map<Tid, Thread>): set<Tid> {
    set t | t in threads && HasWorker(threads[t])
  }

  /** The workers of one quiescing caller that have left the queue and not finished. */
  function Busy(threads: map<Tid, Thread>, owner: Tid): set<Tid> {
    set t | t in threads && HasDeletion(threads[t]) && !threads[t].Queued? && threads[t].d.who == QuiesceWorker(owner)
  }

  /** A listing of a non-empty inventory queues one worker per record. */
  predicate QueuesListing(s: State, workers: map<Tid, SandboxId>) {
    && workers.Keys !! s.threads.Keys
    && (forall w :: w in workers ==> workers[w] in s.shared.catalog.records)
    && (forall id :: id in s.shared.catalog.records ==> exists w :: w in workers && workers[w] == id)
    && (forall v, w :: v in workers && w in workers && workers[v] == workers[w] ==> v == w)
  }

  predicate Enabled(s: State, a: Action) {
    match a
    case Tick(_) => true
    case Spawn(t, th) => t !in s.threads && MaySpawn(s, th)
    case Step(t, _) => t in s.threads && Runnable(s.threads[t])
    case Resolve(t) => t in s.threads && s.threads[t].Sending?
    case StartJob(t) =>
      && t in s.threads && IsJob(s.threads[t])
      && s.queue != [] && s.queue[0] == t && |Occupied(s.threads)| < s.config.workers
    case StartWorker(t) =>
      && t in s.threads && s.threads[t].Queued? && s.threads[t].d.who.QuiesceWorker?
      && |Busy(s.threads, s.threads[t].d.who.owner)| < s.config.deleteConcurrency
    case ListAll(t, workers) =>
      && t in s.threads && s.threads[t].Listing?
      && QueuesListing(s, workers)
    case Join(t) =>
      && t in s.threads && s.threads[t].Joining?
      && forall w :: w in s.threads[t].workers && w in s.threads ==> Finished(s.threads[w])
    case Abandon(t) => t in s.threads && (s.threads[t].Listing? || s.threads[t].Joining?)
  }

  function QueuedWorkers(s: State, owner: Tid, workers: map<Tid, SandboxId>): map<Tid, Thread>
    requires forall w :: w in workers ==> workers[w] in s.shared.catalog.records
  {
    map w | w in workers ::
      Queued(Deletion(QuiesceWorker(owner), workers[w],
                      Named(s.shared.catalog.records[workers[w]].generation), s.shared.catalog.next))
  }

  /** A caller that gives up cancels its workers that are still queued; the others run on. */
  function CancelQueued(threads: map<Tid, Thread>, owner: Tid): map<Tid, Thread> {
    map t | t in threads ::
      if threads[t].Queued? && threads[t].d.who == QuiesceWorker(owner) then Done else threads[t]
  }

  function Started(th: Thread): Thread
    requires IsJob(th)
  {
    match th
    case Submitted(id) => Acquiring(Proxy, id)
    case Discovering(id) => Calling(Proxy, id)
    case Resolving(id, generation) => Looking(id, generation)
  }

  function After(s: State, a: Action): State
    requires Enabled(s, a)
  {
    match a
    case Tick(elapsed) => s.(shared := s.shared.(now := s.shared.now + elapsed))
    case Spawn(t, th) => s.(threads := s.threads[t := th], queue := if IsJob(th) then s.queue + [t] else s.queue)
    case Step(t, fails) =>
      var e := LocalStep(s.config, s.shared, s.threads[t], fails);
      s.(shared := e.shared, threads := WakeAll(s.threads[t := e.thread], e.pinsNotified, e.gateNotified),
         queue := if IsJob(e.thread) then s.queue + [t] else s.queue)
    case Resolve(t) =>
      s.(threads := s.threads[t := Resolving(s.threads[t].id, s.threads[t].generation)], queue := s.queue + [t])
    case StartJob(t) => s.(threads := s.threads[t := Started(s.threads[t])], queue := s.queue[1..])
    case StartWorker(t) => s.(threads := s.threads[t := Deleting(s.threads[t].d)])
    case ListAll(t, workers) =>
      if s.shared.catalog.records == map[] then s.(threads := s.threads[t := Quiesced(true)])
      else s.(threads := s.threads[t := Joining(workers.Keys)] + QueuedWorkers(s, t, workers))
    case Join(t) => s.(threads := s.threads[t := Listing])
    case Abandon(t) => s.(threads := CancelQueued(s.threads[t := Quiesced(false)], t))
  }

  /**
   A start-up state: nothing runs, and the sandboxes already there are seeded as active now, unless
   the reaper is off or could not list them.
   */
  predicate Initial(s: State) {
    && s.threads == map[] && s.queue == []
    && s.shared.pins == NO_PINS
    && s.shared.gate == OPEN_GATE
    && s.shared.pinned == map[]
    && (forall id :: id in s.shared.catalog.records ==> s.shared.catalog.records[id].generation < s.shared.catalog.next)
    && (forall i, j | i in s.shared.catalog.records && j in s.shared.catalog.records ::
          s.shared.catalog.records[i].generation == s.shared.catalog.records[j].generation ==> i == j)
    && (s.shared.activity == map[]
        || (0 < s.config.idleTimeout && s.shared.activity == Seeded(map[], s.shared.catalog.records, s.shared.now)))
    && 1 <= s.config.deleteConcurrency && 1 <= s.config.workers
  }

  /** `states` follows `actions` one enabled step at a time. */
  ghost predicate IsRun(states: seq<State>, actions: seq<Action>) {
    && |states| == |actions| + 1
    && forall k {:trigger actions[k]} :: 0 <= k < |actions| ==>
         Enabled(states[k], actions[k]) && states[k + 1] == After(states[k], actions[k])
  }

  ghost predicate IsExecution(states: seq<State>, actions: seq<Action>) {
    IsRun(states, actions) && Initial(states[0])
  }
}
