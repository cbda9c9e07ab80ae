/** The in-memory inventory of sandboxes and the activity table of the idle reaper. */
module Inventory {
  import opened Wrappers
  import opened OperationPins

  /** A generation is drawn from a counter, which stands for the source's random token: never repeated. */
  type Generation = nat

  datatype Record = Record(generation: Generation, workdir: Option<string>)

  /**
   What a delete request says about the generation it means.  `Blank` is the empty string, which the
   inventory treats like no fence at all while the activity table treats it as a generation of its own.
   */
  datatype Fence = Unfenced | Blank | Named(generation: Generation)

  datatype CreateOutcome = Returned(record: Record) | WorkdirMismatch

  datatype Catalog = Catalog(records: map<SandboxId, Record>, next: Generation) {

    function Created(id: SandboxId, workdir: Option<string>): (Catalog, CreateOutcome) {
      if id in records then
        (this, if records[id].workdir == workdir then Returned(records[id]) else WorkdirMismatch)
      else
        var record := Record(next, workdir);
        (Catalog(records[id := record], next + 1), Returned(record))
    }

    /** The request names a generation other than the one in the inventory. */
    predicate Mismatch(id: SandboxId, fence: Fence) {
      id in records && fence.Named? && records[id].generation != fence.generation
    }

    function Deleted(id: SandboxId, fence: Fence): Catalog {
      if Mismatch(id, fence) then this else this.(records := records - {id})
    }
  }

  class MemoryProvisionerBackend {
    var records: map<SandboxId, Record>
    var next: Generation

    function Contents(): Catalog
      reads this
    {
      Catalog(records, next)
    }

    /** Every generation in the inventory has been issued, so that a new one is one that no record has. */
    predicate AllIssued()
      reads this
    {
      forall id :: id in records ==> records[id].generation < next
    }

    constructor ()
      ensures Contents() == Catalog(map[], 0) && AllIssued()
    {
      records, next := map[], 0;
    }

    method Create(id: SandboxId, workdir: Option<string>) returns (outcome: CreateOutcome)
      modifies this
      ensures (Contents(), outcome) == old(Contents()).Created(id, workdir)
      ensures id in old(records) ==>
        && Contents() == old(Contents())
        && (outcome.Returned? <==> old(records)[id].workdir == workdir)
        && (outcome.Returned? ==> outcome.record == old(records)[id])
      ensures id !in old(records) ==>
        && outcome.Returned? && outcome.record.workdir == workdir && records == old(records)[id := outcome.record]
      ensures old(AllIssued()) ==> AllIssued()
      ensures old(AllIssued()) && id !in old(records) ==>
        forall i :: i in old(records) ==> old(records)[i].generation != outcome.record.generation
    {
      if id in records {
        var existing := records[id];
        if existing.workdir != workdir {
          return WorkdirMismatch;
        }
        return Returned(existing);
      }
      var record := Record(next, workdir);
      records, next := records[id := record], next + 1;
      return Returned(record);
    }

    method Discover(id: SandboxId) returns (found: Option<Record>)
      ensures found == if id in Contents().records then Some(Contents().records[id]) else None
    {
      found := if id in records then Some(records[id]) else None;
    }

    /** Returns false, and changes nothing, when the fence names another generation. */
    method Delete(id: SandboxId, fence: Fence) returns (accepted: bool)
      modifies this
      ensures accepted <==> !old(Contents()).Mismatch(id, fence)
      ensures Contents() == old(Contents()).Deleted(id, fence)
      ensures accepted <==> (id in old(records) && fence.Named? ==> old(records)[id].generation == fence.generation)
      ensures next == old(next) && records == if accepted then old(records) - {id} else old(records)
      ensures old(AllIssued()) ==> AllIssued()
    {
      if id in records && fence.Named? && records[id].generation != fence.generation {
        return false;
      }
      records := records - {id};
      return true;
    }
  }

  /** When a sandbox was last active, and which generation was then observed. */
  datatype Stamp = Stamp(generation: Option<Generation>, at: int)

  type ActivityTable = map<SandboxId, Stamp>

  function Touched(activity: ActivityTable, id: SandboxId, generation: Option<Generation>, now: int): ActivityTable {
    var observed :=
      if generation.Some? then generation
      else if id in activity then activity[id].generation
      else None;
    activity[id := Stamp(observed, now)]
  }

  /** A fenced `forget` must find the very generation it names. */
  predicate Forgets(activity: ActivityTable, id: SandboxId, fence: Fence) {
    && id in activity
    && match fence
       case Unfenced => true
       case Blank => false
       case Named(g) => activity[id].generation == Some(g)
  }

  function Forgotten(activity: ActivityTable, id: SandboxId, fence: Fence): ActivityTable {
    if Forgets(activity, id, fence) then activity - {id} else activity
  }

  function Seeded(activity: ActivityTable, records: map<SandboxId, Record>, now: int): ActivityTable {
    map id | id in records.Keys + activity.Keys ::
      if id in activity then activity[id] else Stamp(Some(records[id].generation), now)
  }

  predicate Expired(activity: ActivityTable, id: SandboxId, cutoff: int) {
    id in activity && activity[id].at <= cutoff
  }

  /** The recheck of the reaper once it owns the sandbox: same generation, still idle. */
  predicate StillExpired(activity: ActivityTable, id: SandboxId, generation: Option<Generation>, cutoff: int) {
    Expired(activity, id, cutoff) && activity[id].generation == generation
  }

  class SandboxIdleReaper {
    var activity: ActivityTable
    const idleTimeout: int

    /** An idle timeout that does not outlast one command execution is raised above it. */
    constructor (execTimeout: nat, configured: int)
      ensures activity == map[]
      ensures configured <= 0 || execTimeout < configured ==> idleTimeout == configured
      ensures 0 < configured <= execTimeout ==> idleTimeout == execTimeout + 30
    {
      activity := map[];
      idleTimeout := if 0 < configured <= execTimeout then execTimeout + 30 else configured;
    }

    method Touch(id: SandboxId, generation: Option<Generation>, now: int)
      modifies this
      ensures id in activity && activity - {id} == old(activity) - {id} && activity[id].at == now
      ensures generation.Some? ==> activity[id].generation == generation
      ensures generation.None? && id in old(activity) ==> activity[id].generation == old(activity)[id].generation
      ensures generation.None? && id !in old(activity) ==> activity[id].generation == None
      ensures activity == Touched(old(activity), id, generation, now)
    {
      var observed := generation;
      if observed.None? && id in activity {
        observed := activity[id].generation;
      }
      activity := activity[id := Stamp(observed, now)];
    }

    method Forget(id: SandboxId, fence: Fence)
      modifies this
      ensures activity - {id} == old(activity) - {id} && (id in activity ==> activity == old(activity))
      ensures id in old(activity) ==>
        (id !in activity <==>
          fence.Unfenced? || (fence.Named? && old(activity)[id].generation == Some(fence.generation)))
      ensures activity == Forgotten(old(activity), id, fence)
    {
      if id !in activity {
        return;
      }
      if fence.Blank? || (fence.Named? && activity[id].generation != Some(fence.generation)) {
        return;
      }
      activity := activity - {id};
    }

    method SeedExisting(records: map<SandboxId, Record>, now: int)
      modifies this
      ensures activity.Keys == old(activity).Keys + records.Keys
      ensures forall id :: id in old(activity) ==> activity[id] == old(activity)[id]
      ensures forall id :: id in records && id !in old(activity) ==>
        activity[id].generation == Some(records[id].generation) && activity[id].at == now
      ensures activity == Seeded(old(activity), records, now)
    {
      var pending := records.Keys;
      while pending != {}
        invariant pending <= records.Keys
        invariant activity.Keys == old(activity).Keys + (records.Keys - pending)
        invariant forall id :: id in activity ==> activity[id] == Seeded(old(activity), records, now)[id]
      {
        var id :| id in pending;
        if id !in activity {
          activity := activity[id := Stamp(Some(records[id].generation), now)];
        }
        pending := pending - {id};
      }
    }

    method CollectExpired(now: int) returns (expired: map<SandboxId, Option<Generation>>)
      ensures idleTimeout <= 0 ==> expired == map[]
      ensures 0 < idleTimeout ==>
        && (forall id :: id in expired <==> Expired(activity, id, now - idleTimeout))
        && (forall id :: id in expired <==> id in activity && now - activity[id].at >= idleTimeout)
        && (forall id :: id in expired ==> expired[id] == activity[id].generation)
    {
      if idleTimeout <= 0 {
        return map[];
      }
      var cutoff := now - idleTimeout;
      expired := map id | id in activity && activity[id].at <= cutoff :: activity[id].generation;
    }

    /** The recheck at the head of a reaper deletion. */
    method Recheck(id: SandboxId, generation: Option<Generation>, now: int) returns (expired: bool)
      ensures expired <==> StillExpired(activity, id, generation, now - idleTimeout)
      ensures expired <==>
        id in activity && now - activity[id].at >= idleTimeout && activity[id].generation == generation
    {
      var cutoff := now - idleTimeout;
      expired := id in activity && activity[id].generation == generation && activity[id].at <= cutoff;
    }
  }
}
