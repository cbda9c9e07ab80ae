/**
 The request handlers in place: one critical section of one handler, run on the four shared objects.
 It is proved to be the step of the transition system, so what `Lifecycle` proves of steps holds here.
 */
module Provisioner {
  import opened Wrappers
  import opened OperationPins
  import opened Inventory
  import opened Lifecycle

  class SandboxProvisioner {
    const pins: SandboxOperationPins
    const gate: SandboxQuiescenceGate
    const backend: MemoryProvisionerBackend
    const reaper: SandboxIdleReaper
    const deleteConcurrency: nat
    const workers: nat
    ghost var pinned: map<SandboxId, int>

    constructor (execTimeout: nat, idleTimeout: int, deleteConcurrency: nat, workers: nat)
      requires 1 <= deleteConcurrency && 1 <= workers
      ensures fresh(pins) && fresh(gate) && fresh(backend) && fresh(reaper)
      ensures Initial(State(Configured(), View(0), map[], []))
    {
      pins := new SandboxOperationPins();
      gate := new SandboxQuiescenceGate();
      backend := new MemoryProvisionerBackend();
      reaper := new SandboxIdleReaper(execTimeout, idleTimeout);
      this.deleteConcurrency := deleteConcurrency;
      this.workers := workers;
      pinned := map[];
    }

    function Configured(): Config {
      Config(reaper.idleTimeout, deleteConcurrency, workers)
    }

    ghost function View(now: int): Shared
      reads this, pins, gate, backend, reaper
    {
      Shared(pins.Table(), gate.State(), backend.Contents(), reaper.activity, now, pinned)
    }

    /** What one critical section leaves: where the handler goes on, and whom it notified. */
    twostate predicate Made(th: Thread, fails: bool, now: int, next: Thread, pinsNotified: bool, gateNotified: bool)
      requires Runnable(th)
      reads this, pins, gate, backend, reaper
    {
      Effect(View(now), next, pinsNotified, gateNotified) == LocalStep(Configured(), old(View(now)), th, fails)
    }

    /** A step of create, get, touch or proxy. */
    method OperationStep(th: Thread, fails: bool, now: int)
      returns (next: Thread, pinsNotified: bool, gateNotified: bool)
      requires Runnable(th) && !HasDeletion(th) && !th.Quiescing? && !th.GateDraining?
      modifies this, pins, gate, backend, reaper
      ensures Made(th, fails, now, next, pinsNotified, gateNotified)
    {
      next, pinsNotified, gateNotified := Done, false, false;
      match th {
        case Admission(id, workdir) =>
          var admitted := gate.TryAcquireCreate();
          if admitted { next := Acquiring(Create(workdir), id); }
        case Acquiring(op, id) =>
          var admitted := pins.TryAcquire(id);
          next := if !admitted then AwaitingPin(op, id) else if op.Proxy? then Discovering(id) else Calling(op, id);
        case Calling(op, id) =>
          next := BackendCall(op, id, fails);
        case Sending(id, generation) =>
          next := if fails then Releasing(Proxy, id, None) else Marking(Proxy, id, generation);
        case Looking(id, generation) =>
          next := if fails then Releasing(Proxy, id, None) else Sending(id, generation);
        case Marking(op, id, generation) =>
          reaper.Touch(id, Some(generation), now);
          pinned := pinned[id := now];
          next := Releasing(op, id, Some(generation));
        case Releasing(op, id, found) =>
          pinsNotified := pins.Release(id);
          if op.Create? { next := Closing(id, found); }
        case Closing(id, found) =>
          gateNotified := gate.ReleaseCreate();
          if found.Some? { next := Reporting(id, found.value); }
        case Reporting(id, generation) =>
          reaper.Touch(id, Some(generation), now);
      }
    }

    /** The call made under the pin: create for creations, discover for the others. */
    method BackendCall(op: Operation, id: SandboxId, fails: bool) returns (next: Thread)
      modifies backend
      ensures forall sh: Shared :: sh.catalog == old(backend.Contents()) ==>
        LocalStep(Configured(), sh, Calling(op, id), fails)
          == Effect(sh.(catalog := backend.Contents()), next, false, false)
    {
      next := Releasing(op, id, None);
      if fails {
        return;
      }
      if op.Create? {
        var outcome := backend.Create(id, op.workdir);
        if outcome.Returned? { next := Releasing(op, id, Some(outcome.record.generation)); }
      } else {
        var found := backend.Discover(id);
        if found.Some? {
          next := if op.Proxy? then Sending(id, found.value.generation) else Marking(op, id, found.value.generation);
        }
      }
    }

    /** A step of a delete request, of a reaper pass, of a quiescing worker or of `begin`. */
    method DeletionStep(th: Thread, fails: bool, now: int)
      returns (next: Thread, pinsNotified: bool, gateNotified: bool)
      requires Runnable(th) && (HasDeletion(th) || th.Quiescing? || th.GateDraining?)
      modifies this, pins, gate, backend, reaper
      ensures Made(th, fails, now, next, pinsNotified, gateNotified)
    {
      next, pinsNotified, gateNotified := Done, false, false;
      match th {
        case Deleting(d) =>
          pins.MarkDeleting(d.id);
          next := Draining(d);
        case Draining(d) =>
          var drained := pins.TryDrained(d.id);
          next := if drained then Owning(d) else AwaitingDrain(d);
        case Owning(_) =>
          next := RemovalStep(th, fails, now);
        case Condemned(_, _) =>
          next := RemovalStep(th, fails, now);
        case Dropping(_) =>
          next := RemovalStep(th, fails, now);
        case Ending(d, forget) =>
          pins.EndDelete(d.id);
          pinsNotified := true;
          if forget { next := Forgetting(d); }
        case Forgetting(d) =>
          reaper.Forget(d.id, d.fence);
        case Quiescing =>
          gate.Start();
          next := GateDraining;
        case GateDraining =>
          var idle := gate.TryIdle();
          next := if idle then Listing else AwaitingGate;
      }
    }

    /** A step of a deleter between the return of `begin_delete` and `end_delete`. */
    method RemovalStep(th: Thread, fails: bool, now: int) returns (next: Thread)
      requires th.Owning? || th.Condemned? || th.Dropping?
      modifies backend, reaper
      ensures Made(th, fails, now, next, false, false)
    {
      next := Done;
      match th {
        case Owning(d) =>
          if d.who.Reaper? {
            var generation := if d.fence.Named? then Some(d.fence.generation) else None;
            var expired := reaper.Recheck(d.id, generation, now);
            next := if expired then Condemned(d, now - reaper.idleTimeout) else Ending(d, false);
          } else {
            var deleted := BackendDelete(d, fails);
            next := Ending(d, deleted);
          }
        case Condemned(d, _) =>
          var deleted := BackendDelete(d, fails);
          next := if deleted then Dropping(d) else Ending(d, false);
        case Dropping(d) =>
          reaper.Forget(d.id, d.fence);
          next := Ending(d, false);
      }
    }

    method BackendDelete(d: Deletion, fails: bool) returns (deleted: bool)
      modifies backend
      ensures deleted <==> !fails && !old(backend.Contents()).Mismatch(d.id, d.fence)
      ensures backend.Contents() == if deleted then old(backend.Contents()).Deleted(d.id, d.fence) else old(backend.Contents())
    {
      if fails {
        return false;
      }
      deleted := backend.Delete(d.id, d.fence);
    }
  }
}
