/**
 The two condition-variable objects of the sandbox provisioner.

 A call that may block is one pass through its critical section: it returns whether the guard
 admitted the caller.  Blocking, parking and waking are steps of the threads in `Lifecycle`.
 The value types say what each object holds; the classes are proved to compute them in place.
 */
module OperationPins {

  type SandboxId = string

  /** `active` counts the operations in flight on a sandbox; `deleting` holds the sandboxes being deleted. */
  datatype PinTable = PinTable(active: map<SandboxId, nat>, deleting: set<SandboxId>) {

    function Count(id: SandboxId): nat {
      if id in active then active[id] else 0
    }

    function Acquired(id: SandboxId): PinTable {
      this.(active := active[id := Count(id) + 1])
    }

    function Released(id: SandboxId): PinTable {
      if Count(id) <= 1 then this.(active := active - {id})
      else this.(active := active[id := Count(id) - 1])
    }

    /** Waiters are notified exactly when the release was the last one. */
    predicate ReleaseNotifies(id: SandboxId) {
      Count(id) <= 1
    }

    function Marked(id: SandboxId): PinTable {
      this.(deleting := deleting + {id})
    }

    function Unmarked(id: SandboxId): PinTable {
      this.(deleting := deleting - {id})
    }
  }

  const NO_PINS := PinTable(map[], {})

  /** `started` is set for good by the first quiescing caller; `creates` counts the creations in flight. */
  datatype GateState = GateState(started: bool, creates: int)

  const OPEN_GATE := GateState(false, 0)

  class SandboxOperationPins {
    var active: map<SandboxId, nat>
    var deleting: set<SandboxId>

    function Table(): PinTable
      reads this
    {
      PinTable(active, deleting)
    }

    constructor ()
      ensures Table() == NO_PINS
    {
      active, deleting := map[], {};
    }

    /** One pass of `acquire`: the caller is admitted unless the sandbox is being deleted. */
    method TryAcquire(id: SandboxId) returns (admitted: bool)
      modifies this`active
      ensures admitted <==> id !in old(deleting)
      ensures admitted ==> id in active && active[id] == 1 + old(Table()).Count(id)
      ensures Table() == if admitted then old(Table()).Acquired(id) else old(Table())
    {
      if id in deleting {
        return false;
      }
      var count := if id in active then active[id] else 0;
      active := active[id := count + 1];
      return true;
    }

    method Release(id: SandboxId) returns (notified: bool)
      modifies this`active
      ensures active - {id} == old(active) - {id} && (notified <==> id !in active)
      ensures id in active ==> id in old(active) && active[id] + 1 == old(active)[id]
      ensures Table() == old(Table()).Released(id)
      ensures notified <==> old(Table()).ReleaseNotifies(id)
    {
      var count := if id in active then active[id] else 0;
      if count <= 1 {
        active := active - {id};
        notified := true;
      } else {
        active := active[id := count - 1];
        notified := false;
      }
    }

    /** The first half of `begin_delete`: from here on new operations are refused. */
    method MarkDeleting(id: SandboxId)
      modifies this`deleting
      ensures Table() == old(Table()).Marked(id)
    {
      deleting := deleting + {id};
    }

    /** One pass of the waiting loop of `begin_delete`. */
    method TryDrained(id: SandboxId) returns (drained: bool)
      ensures drained <==> Table().Count(id) == 0
    {
      drained := id !in active || active[id] == 0;
    }

    /** `end_delete` always notifies. */
    method EndDelete(id: SandboxId)
      modifies this`deleting
      ensures Table() == old(Table()).Unmarked(id)
    {
      deleting := deleting - {id};
    }
  }

  class SandboxQuiescenceGate {
    var started: bool
    var creates: int

    function State(): GateState
      reads this
    {
      GateState(started, creates)
    }

    constructor ()
      ensures State() == OPEN_GATE
    {
      started, creates := false, 0;
    }

    /** The first half of `begin`: creations are refused from here on, for ever. */
    method Start()
      modifies this`started
      ensures State() == old(State()).(started := true)
    {
      started := true;
    }

    /** One pass of the waiting loop of `begin`. */
    method TryIdle() returns (idle: bool)
      ensures idle <==> State().creates == 0
    {
      idle := creates == 0;
    }

    method TryAcquireCreate() returns (admitted: bool)
      modifies this`creates
      ensures admitted <==> !old(started)
      ensures State() == if admitted then old(State()).(creates := old(creates) + 1) else old(State())
    {
      if started {
        return false;
      }
      creates := creates + 1;
      return true;
    }

    method ReleaseCreate() returns (notified: bool)
      modifies this`creates
      ensures State() == old(State()).(creates := old(creates) - 1)
      ensures notified <==> State().creates == 0
    {
      creates := creates - 1;
      notified := creates == 0;
    }
  }
}
