/** What creations report: one generation for one sandbox, for as long as it is not removed. */
module LifecycleCreation {
  import opened Wrappers
  import opened OperationPins
  import opened Inventory
  import opened Lifecycle
  import opened LifecycleInvariant

  /** The step is a creation of the sandbox that reaches the inventory and is answered. */
  predicate Creates(s: State, a: Action, id: SandboxId, workdir: Option<string>) {
    && a.Step? && !a.fails && a.tid in s.threads
    && s.threads[a.tid].Calling? && s.threads[a.tid].op == Create(workdir) && s.threads[a.tid].id == id
  }

  /** The generation that the step reports to its caller, if any. */
  function Reported(s': State, a: Action): Option<Generation>
    requires a.Step? && a.tid in s'.threads && s'.threads[a.tid].Releasing?
  {
    s'.threads[a.tid].found
  }

  /**
   A creation of a sandbox that is there reports its generation if the work directory is the same, and
   nothing if it is another; of one that is not there, it reports a generation that no record has.
   In each case the inventory changes by that record at most.
   */
  lemma {:induction false} CreationReports(s: State, a: Action, id: SandboxId, workdir: Option<string>)
    requires Inv(s) && Enabled(s, a) && Creates(s, a, id, workdir)
    ensures
      var s' := After(s, a);
      var records, records' := s.shared.catalog.records, s'.shared.catalog.records;
      && a.tid in s'.threads && s'.threads[a.tid].Releasing? && s'.threads[a.tid].id == id
      && var found := Reported(s', a);
         if id in records then
           records' == records && found == if records[id].workdir == workdir then Some(records[id].generation) else None
         else
           && found.Some? && records' == records[id := Record(found.value, workdir)]
           && forall other :: other in records ==> records[other].generation != found.value
  {
    AfterStep(s, a.tid, a.fails, a.tid);
    assert Generations(s);
    hide Inv, WakeAll;
  }

  /** A record that stays in the inventory stays what it is. */
  lemma {:induction false} RecordStays(s: State, a: Action, id: SandboxId)
    requires Enabled(s, a) && id in s.shared.catalog.records && id in After(s, a).shared.catalog.records
    ensures After(s, a).shared.catalog.records[id] == s.shared.catalog.records[id]
  {
  }

  lemma {:induction false} RecordStaysThroughout(states: seq<State>, actions: seq<Action>, i: nat, j: nat, id: SandboxId)
    requires IsRun(states, actions) && i <= j < |states|
    requires forall k :: i <= k <= j ==> id in states[k].shared.catalog.records
    ensures states[j].shared.catalog.records[id] == states[i].shared.catalog.records[id]
    decreases j
  {
    hide Enabled, After;
    if i < j {
      RecordStaysThroughout(states, actions, i, j - 1, id);
      assert Enabled(states[j - 1], actions[j - 1]);
      RecordStays(states[j - 1], actions[j - 1], id);
    }
  }

  /**
   Two creations of one sandbox that is not removed between them: if the first reports a generation, the
   second reports the same one for the same work directory, and nothing for another.
   */
  lemma {:induction false} CreationsAgree(
      states: seq<State>, actions: seq<Action>, i: nat, j: nat, id: SandboxId, first: Option<string>, second: Option<string>)
    requires IsExecution(states, actions) && i < j < |actions|
    requires Creates(states[i], actions[i], id, first) && Creates(states[j], actions[j], id, second)
    requires forall k :: i < k <= j ==> id in states[k].shared.catalog.records
    ensures actions[i].tid in states[i + 1].threads && states[i + 1].threads[actions[i].tid].Releasing?
    ensures actions[j].tid in states[j + 1].threads && states[j + 1].threads[actions[j].tid].Releasing?
    ensures Reported(states[i + 1], actions[i]).Some? ==>
              Reported(states[j + 1], actions[j]) == if first == second then Reported(states[i + 1], actions[i]) else None
  {
    hide Inv, Enabled, After, Creates, Initial;
    ExecutionKeepsInv(states, actions, i);
    ExecutionKeepsInv(states, actions, j);
    assert Enabled(states[i], actions[i]) && Enabled(states[j], actions[j]);
    assert actions[i].Step? && actions[j].Step? by {
      CreatesByStep(states[i], actions[i], id, first);
      CreatesByStep(states[j], actions[j], id, second);
    }
    CreationReports(states[i], actions[i], id, first);
    CreationReports(states[j], actions[j], id, second);
    RecordStaysThroughout(states, actions, i + 1, j, id);
  }

  lemma {:induction false} CreatesByStep(s: State, a: Action, id: SandboxId, workdir: Option<string>)
    requires Creates(s, a, id, workdir)
    ensures a.Step?
  {
  }
}
