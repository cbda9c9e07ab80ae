/**
 Synchronising departments: a planner that matches the departments of the office-automation system
 with the rows of a platform, and an executor that replays the plan on the table of rows.
 */
module DepartmentPlan {
  import opened DepartmentTree
  import opened Stripping
  import opened Wrappers

  /** The row that every top-level department is hung under. */
  const ROOT: int := 1

  datatype Row = Row(name: string, parent: Option<int>, code: Option<string>, oaId: Option<int>)

  datatype Entry = Entry(id: int, row: Row)

  /** What the planner knows of a row: its id and what identity it carries. */
  datatype Known = Known(id: int, code: Option<string>, oaId: Option<int>)
  {
    predicate HasCode() {
      code.Some? && code.value != ""
    }

    predicate HasId() {
      oaId.Some? && oaId.value != 0
    }

    predicate Differs(d: OaDepartment) {
      (HasCode() && code.value != d.code) || (HasId() && oaId.value != d.oaId)
    }
  }

  type Key = (Option<int>, string)

  function KeyOf(row: Row): Key {
    (row.parent, Strip(row.name))
  }

  function KnownOf(id: int, row: Row): Known {
    Known(id, row.code, row.oaId)
  }

  datatype Kind = Create | UpdateIdentity | Skip | Conflict

  datatype Reason = DuplicateCode | ParentNotMapped | AlreadyIdentified | OtherIdentity

  datatype DepartmentAction = DepartmentAction(
    kind: Kind, oaId: int, code: string, name: string, departmentId: Option<int>, existingOaId: Option<int>,
    parent: Option<int>, reason: Option<Reason>)

  // ---- The planner -------------------------------------------------------------------------------

  /** The planner between two departments: `mapped` holds a negative placeholder for a row yet to be created. */
  datatype Planner = Planner(known: map<Key, Known>, mapped: map<int, int>, seen: set<string>)
  {
    function Decided(d: OaDepartment): DepartmentAction {
      var action := DepartmentAction(Skip, d.oaId, d.code, d.name, None, None, d.parent, None);
      var at := Image(mapped, d.parent);
      if d.code in seen then action.(reason := Some(DuplicateCode))
      else if at.None? then action.(reason := Some(ParentNotMapped))
      else if (at, d.name) !in known then action.(kind := Create)
      else
        var current := known[(at, d.name)];
        if current.Differs(d) then
          action.(kind := Conflict, departmentId := Some(current.id), existingOaId := current.oaId,
                  reason := Some(OtherIdentity))
        else if current.HasCode() && current.HasId() then
          action.(departmentId := Some(current.id), reason := Some(AlreadyIdentified))
        else
          action.(kind := UpdateIdentity, departmentId := Some(current.id), existingOaId := current.oaId)
    }

    function Noted(d: OaDepartment): Planner {
      var at := Image(mapped, d.parent);
      if d.code in seen then this
      else if at.None? then this.(seen := seen + {d.code})
      else if (at, d.name) in known then
        this.(seen := seen + {d.code}, mapped := mapped[d.oaId := known[(at, d.name)].id])
      else
        this.(seen := seen + {d.code}, mapped := mapped[d.oaId := -d.oaId],
              known := known[(Some(-d.oaId), d.name) := Known(-d.oaId, Some(d.code), Some(d.oaId))])
    }
  }

  function Image(mapped: map<int, int>, parent: Option<int>): Option<int> {
    if parent.None? then Some(ROOT) else if parent.value in mapped then Some(mapped[parent.value]) else None
  }

  function Index(existing: seq<Entry>): map<Key, Known> {
    if existing == [] then map[]
    else
      var last := existing[|existing| - 1];
      Index(existing[..|existing| - 1])[KeyOf(last.row) := KnownOf(last.id, last.row)]
  }

  /** The planner before department i. */
  function PlanAt(existing: seq<Entry>, departments: seq<OaDepartment>, i: nat): Planner
    requires i <= |departments|
  {
    if i == 0 then Planner(Index(existing), map[], {})
    else PlanAt(existing, departments, i - 1).Noted(departments[i - 1])
  }

  /** One action for each department, in the same order. */
  function Plan(existing: seq<Entry>, departments: seq<OaDepartment>): seq<DepartmentAction> {
    seq(|departments|, i requires 0 <= i < |departments| =>
      PlanAt(existing, departments, i).Decided(departments[i]))
  }

  method IndexRows(existing: seq<Entry>) returns (known: map<Key, Known>)
    ensures known == Index(existing)
  {
    known := map[];
    for i := 0 to |existing|
      invariant known == Index(existing[..i])
    {
      assert existing[..i + 1][..i] == existing[..i];
      known := known[KeyOf(existing[i].row) := KnownOf(existing[i].id, existing[i].row)];
    }
    assert existing[..|existing|] == existing;
  }

  /** One turn of the planner's loop: decide about d, and note what the departments after it need to know. */
  method PlanDepartment(d: OaDepartment, known: map<Key, Known>, mapped: map<int, int>, seen: set<string>)
    returns (action: DepartmentAction, known': map<Key, Known>, mapped': map<int, int>, seen': set<string>)
    ensures action == Planner(known, mapped, seen).Decided(d)
    ensures Planner(known', mapped', seen') == Planner(known, mapped, seen).Noted(d)
  {
    known', mapped', seen' := known, mapped, seen;
    action := DepartmentAction(Skip, d.oaId, d.code, d.name, None, None, d.parent, None);
    if d.code in seen {
      action := action.(reason := Some(DuplicateCode));
      return;
    }
    seen' := seen + {d.code};
    var at := Image(mapped, d.parent);
    if at.None? {
      action := action.(reason := Some(ParentNotMapped));
      return;
    }
    if (at, d.name) in known {
      var current := known[(at, d.name)];
      mapped' := mapped[d.oaId := current.id];
      if current.Differs(d) {
        action := action.(kind := Conflict, departmentId := Some(current.id), existingOaId := current.oaId,
                          reason := Some(OtherIdentity));
      } else if current.HasCode() && current.HasId() {
        action := action.(departmentId := Some(current.id), reason := Some(AlreadyIdentified));
      } else {
        action := action.(kind := UpdateIdentity, departmentId := Some(current.id), existingOaId := current.oaId);
      }
    } else {
      action := action.(kind := Create);
      mapped' := mapped[d.oaId := -d.oaId];
      known' := known[(Some(-d.oaId), d.name) := Known(-d.oaId, Some(d.code), Some(d.oaId))];
    }
  }

  method BuildDepartmentActions(departments: seq<OaDepartment>, existing: seq<Entry>)
    returns (actions: seq<DepartmentAction>)
    ensures actions == Plan(existing, departments)
  {
    hide Planner.Decided, Planner.Noted, Index;
    var existingByParent := IndexRows(existing);
    var mappedDepartmentIds: map<int, int> := map[];
    var seenCodes: set<string> := {};
    actions := [];
    for i := 0 to |departments|
      invariant PlanAt(existing, departments, i) == Planner(existingByParent, mappedDepartmentIds, seenCodes)
      invariant actions == Plan(existing, departments)[..i]
    {
      var action;
      action, existingByParent, mappedDepartmentIds, seenCodes :=
        PlanDepartment(departments[i], existingByParent, mappedDepartmentIds, seenCodes);
      assert action == Plan(existing, departments)[i];
      actions := actions + [action];
    }
  }

  // ---- The executor ------------------------------------------------------------------------------

  datatype Table = Table(rows: map<int, Row>, next: int)
  {
    /** A database refuses a second row with the same code or the same identity. */
    predicate Claimed(id: int, code: string, oaId: int) {
      exists other :: other in rows && other != id && Carries(rows[other], code, oaId)
    }

    predicate NameTaken(parent: int, name: string) {
      exists other :: other in rows && rows[other].parent == Some(parent) && rows[other].name == name
    }

    function Identified(id: int, code: string, oaId: int): Table
      requires id in rows
    {
      this.(rows := rows[id := rows[id].(code := Some(code), oaId := Some(oaId))])
    }

    function WithChild(parent: int, name: string): Table {
      Table(rows[next := Row(name, Some(parent), None, None)], next + 1)
    }
  }

  predicate Carries(row: Row, code: string, oaId: int) {
    row.code == Some(code) || row.oaId == Some(oaId)
  }

  datatype ApplyError = ConflictingPlan | ParentUnmapped | ParentMissing | DepartmentMissing | Duplicate

  datatype Session = Session(table: Table, mapped: map<int, int>)
  {
    function Executed(a: DepartmentAction): Result<Session, ApplyError> {
      var at := Image(mapped, a.parent);
      if a.kind == Conflict then Failure(ConflictingPlan)
      else if a.kind == Skip then
        Success(if a.departmentId.Some? then this.(mapped := mapped[a.oaId := a.departmentId.value]) else this)
      else if at.None? then Failure(ParentUnmapped)
      else if at.value !in table.rows then Failure(ParentMissing)
      else if a.kind == Create then
        if table.NameTaken(at.value, a.name) || table.Claimed(table.next, a.code, a.oaId) then Failure(Duplicate)
        else
          var id := table.next;
          Success(Session(table.WithChild(at.value, a.name).Identified(id, a.code, a.oaId), mapped[a.oaId := id]))
      else if a.departmentId.None? || a.departmentId.value !in table.rows then Failure(DepartmentMissing)
      else
        var id := a.departmentId.value;
        if table.Claimed(id, a.code, a.oaId) then Failure(Duplicate)
        else Success(Session(table.Identified(id, a.code, a.oaId), mapped[a.oaId := id]))
    }
  }

  /** The executor after the first i actions, or the error that stopped it. */
  function AppliedAt(table: Table, actions: seq<DepartmentAction>, i: nat): Result<Session, ApplyError>
    requires i <= |actions|
  {
    if i == 0 then Success(Session(table, map[]))
    else
      var before := AppliedAt(table, actions, i - 1);
      if before.Failure? then before else before.value.Executed(actions[i - 1])
  }

  function Applied(table: Table, actions: seq<DepartmentAction>): Result<Session, ApplyError> {
    AppliedAt(table, actions, |actions|)
  }

  lemma {:induction false} FailureStays(table: Table, actions: seq<DepartmentAction>, i: nat, j: nat)
    requires i <= j <= |actions| && AppliedAt(table, actions, i).Failure?
    ensures AppliedAt(table, actions, j) == AppliedAt(table, actions, i)
    decreases j
  {
    if i < j {
      FailureStays(table, actions, i, j - 1);
    }
  }

  class DepartmentTable {
    var rows: map<int, Row>
    var next: int

    function View(): Table
      reads this
    {
      Table(rows, next)
    }

    constructor (table: Table)
      ensures View() == table
    {
      rows, next := table.rows, table.next;
    }

    method CreateChild(name: string, parent: int) returns (id: int)
      modifies this
      ensures id == old(next) && View() == old(View()).WithChild(parent, name)
    {
      id := next;
      rows := rows[id := Row(name, Some(parent), None, None)];
      next := next + 1;
    }

    method SetIdentity(id: int, code: string, oaId: int)
      requires id in rows
      modifies this`rows
      ensures View() == old(View()).Identified(id, code, oaId)
    {
      rows := rows[id := rows[id].(code := Some(code), oaId := Some(oaId))];
    }

    /** All actions in one transaction: an error leaves the table as it was. */
    method ApplyActions(actions: seq<DepartmentAction>) returns (error: Option<ApplyError>)
      modifies this
      ensures
        var run := Applied(old(View()), actions);
        error == (if run.Failure? then Some(run.error) else None)
        && View() == if run.Success? then run.value.table else old(View())
    {
      var savedRows, savedNext := rows, next;
      var mapped: map<int, int> := map[];
      var i := 0;
      while i < |actions|
        invariant i <= |actions|
        invariant AppliedAt(old(View()), actions, i) == Success(Session(View(), mapped))
      {
        mapped, error := ApplyAction(actions[i], mapped);
        if error.Some? {
          rows, next := savedRows, savedNext;
          FailureStays(old(View()), actions, i + 1, |actions|);
          return;
        }
        i := i + 1;
      }
      error := None;
    }

    method ApplyAction(a: DepartmentAction, mapped: map<int, int>)
      returns (mapped': map<int, int>, error: Option<ApplyError>)
      modifies this
      ensures
        var run := Session(old(View()), mapped).Executed(a);
        error == (if run.Failure? then Some(run.error) else None)
        && (run.Success? ==> Session(View(), mapped') == run.value)
    {
      mapped', error := mapped, None;
      if a.kind == Conflict {
        error := Some(ConflictingPlan);
        return;
      }
      if a.kind == Skip {
        if a.departmentId.Some? {
          mapped' := mapped[a.oaId := a.departmentId.value];
        }
        return;
      }
      var at := Image(mapped, a.parent);
      if at.None? {
        error := Some(ParentUnmapped);
        return;
      }
      if at.value !in rows {
        error := Some(ParentMissing);
        return;
      }
      var id;
      if a.kind == Create {
        if View().NameTaken(at.value, a.name) || View().Claimed(next, a.code, a.oaId) {
          error := Some(Duplicate);
          return;
        }
        id := CreateChild(a.name, at.value);
      } else {
        if a.departmentId.None? || a.departmentId.value !in rows {
          error := Some(DepartmentMissing);
          return;
        }
        id := a.departmentId.value;
        if View().Claimed(id, a.code, a.oaId) {
          error := Some(Duplicate);
          return;
        }
      }
      SetIdentity(id, a.code, a.oaId);
      mapped' := mapped[a.oaId := id];
    }
  }
}
