/** Plans without conflicts that the database nevertheless refuses. */
module SyncRefusals {
  import opened DepartmentTree
  import opened Stripping
  import opened Wrappers
  import D = DepartmentPlan
  import DS = DepartmentSync
  import DR = DepartmentReplay
  import U = UserPlan
  import UR = UserReplay

  const GROUP := D.Row("G", None, None, None)

  const LAB := D.Row("L", Some(D.ROOT), Some("l"), Some(5))

  const ANNEX := D.Row("A", Some(D.ROOT), None, None)

  const MOVED_UNDER := OaDepartment(6, "a", "A", None)

  const MOVED := OaDepartment(5, "l", "L", Some(6))

  /** A department that was moved below another is planned as a new one, whose identity its old row still carries. */
  lemma {:induction false} MovedDepartmentIsRefused()
    returns (t: D.Table, existing: seq<D.Entry>, departments: seq<OaDepartment>)
    ensures DS.SoundTable(t) && DS.Lists(existing, t) && DS.SoundInput(departments)
    ensures DS.ConflictFree(D.Plan(existing, departments))
    ensures D.Applied(t, D.Plan(existing, departments)) == Failure(D.Duplicate)
  {
    t := D.Table(map[1 := GROUP, 2 := LAB, 3 := ANNEX], 4);
    existing := [D.Entry(1, GROUP), D.Entry(2, LAB), D.Entry(3, ANNEX)];
    departments := [MOVED_UNDER, MOVED];
    MovedTableIsSound(t, existing);
    MovedInputIsSound(departments);
    MovedPlan(existing, departments);
    var plan := D.Plan(existing, departments);
    assert D.Carries(t.rows[2], plan[1].code, plan[1].oaId);
    assert DS.Refused(t, plan[1]) && plan[1] in plan;
    DR.PlanAppliesIff(t, existing, departments);
    hide D.Plan, D.Applied, DS.Refused, Strip, DS.SoundTable, DS.SoundInput, DS.Lists;
  }

  lemma {:induction false} MovedInputIsSound(departments: seq<OaDepartment>)
    requires departments == [MOVED_UNDER, MOVED]
    ensures DS.SoundInput(departments)
  {
    StripIsIdempotent("A");
    StripIsIdempotent("L");
    hide Strip;
  }

  lemma {:induction false} MovedTableIsSound(t: D.Table, existing: seq<D.Entry>)
    requires t == D.Table(map[1 := GROUP, 2 := LAB, 3 := ANNEX], 4)
    requires existing == [D.Entry(1, GROUP), D.Entry(2, LAB), D.Entry(3, ANNEX)]
    ensures DS.SoundTable(t) && DS.Lists(existing, t)
  {
    StripIsIdempotent("G");
    StripIsIdempotent("L");
    StripIsIdempotent("A");
    hide Strip;
  }

  lemma {:induction false} MovedPlan(existing: seq<D.Entry>, departments: seq<OaDepartment>)
    requires existing == [D.Entry(1, GROUP), D.Entry(2, LAB), D.Entry(3, ANNEX)]
    requires departments == [MOVED_UNDER, MOVED]
    ensures
      var plan := D.Plan(existing, departments);
      && plan[0].kind == D.UpdateIdentity
      && plan[1].kind == D.Create && plan[1].oaId == 5 && plan[1].code == "l" && plan[1].departmentId == None
  {
    var index := MovedIndex(existing);
    hide D.Index;
    var p0, p1 := D.PlanAt(existing, departments, 0), D.PlanAt(existing, departments, 1);
    assert p0 == D.Planner(index, map[], {});
    assert p1 == p0.Noted(MOVED_UNDER) == D.Planner(index, map[6 := 3], {"a"});
    assert D.Plan(existing, departments)[0] == p0.Decided(MOVED_UNDER);
    assert D.Plan(existing, departments)[1] == p1.Decided(MOVED);
  }

  lemma {:induction false} MovedIndex(existing: seq<D.Entry>) returns (index: map<D.Key, D.Known>)
    requires existing == [D.Entry(1, GROUP), D.Entry(2, LAB), D.Entry(3, ANNEX)]
    ensures index == D.Index(existing)
    ensures index == map[(None, "G") := D.KnownOf(1, GROUP), (Some(1), "L") := D.KnownOf(2, LAB),
                         (Some(1), "A") := D.KnownOf(3, ANNEX)]
  {
    StripIsIdempotent("G");
    StripIsIdempotent("L");
    StripIsIdempotent("A");
    var one, two := [D.Entry(1, GROUP)], [D.Entry(1, GROUP), D.Entry(2, LAB)];
    assert existing[..2] == two && two[..1] == one && one[..0] == [];
    assert D.Index(one) == map[(None, "G") := D.KnownOf(1, GROUP)];
    assert D.Index(two) == D.Index(one)[(Some(1), "L") := D.KnownOf(2, LAB)];
    index := D.Index(two)[(Some(1), "A") := D.KnownOf(3, ANNEX)];
  }

  /** A user who was deleted and has come back is planned as a new one, whose identity the deleted row still holds. */
  lemma {:induction false} ReturningUserIsRefused()
    returns (t: U.UserTable, input: UR.Input)
    ensures UR.SoundUsers(t) && UR.Lists([], t)
    ensures UR.ConflictFree(input.Actions([])) && |input.Actions([])| == 1 && input.Actions([])[0].kind == U.Create
    ensures U.Applied(t, input.Actions([])) == Failure(U.Duplicate)
  {
    var uid := U.BuildOaUid("ZD", "7");
    t := U.UserTable(map[1 := U.UserRow("gone", None, uid, None, true)], 2);
    input := UR.Input([U.OaUser("7", "N", Some(5))], [U.Link(9, Some(5))], "ZD");
    StripIsIdempotent("7");
    StripIsIdempotent("N");
    assert U.DepartmentsOf(input.links, 5) == [9];
    assert input.Accepted(0);
    UR.AcceptedAction(input, [], 0);
    var a := input.Actions([])[0];
    assert a.kind == U.Create && a.uid == Some(uid);
    assert UR.Blocks(t.rows[1], a);
    assert UR.Blocked(t, a) && a in input.Actions([]);
    UR.PlanAppliesIff(input, [], t);
    hide Strip, U.BuildOaUid, U.Applied, U.Plan;
  }
}
