/**
 The synchronisation of departments and then users, as a dry run and as a run that writes.

 The dry run has no keys for the departments it would create, and plans the users with negative
 placeholders instead.
 */
module OaSync {
  import opened DepartmentTree
  import opened Wrappers
  import D = DepartmentPlan
  import DS = DepartmentSync
  import DR = DepartmentReplay
  import U = UserPlan

  // ---- Counting actions --------------------------------------------------------------------------

  ghost predicate IsTally<K(!new)>(counts: map<K, nat>, kinds: seq<K>) {
    forall k :: (k in counts <==> k in kinds) && (k in counts ==> counts[k] == multiset(kinds)[k])
  }

  method CountActions<K(==,!new)>(kinds: seq<K>) returns (counts: map<K, nat>)
    ensures IsTally(counts, kinds)
  {
    counts := map[];
    for i := 0 to |kinds|
      invariant IsTally(counts, kinds[..i])
    {
      assert kinds[..i + 1] == kinds[..i] + [kinds[i]];
      counts := counts[kinds[i] := (if kinds[i] in counts then counts[kinds[i]] else 0) + 1];
    }
    assert kinds[..|kinds|] == kinds;
  }

  // ---- The departments a dry run gives to the user planner ---------------------------------------

  function LinkOf(a: D.DepartmentAction): seq<U.Link> {
    if (a.kind.Conflict? || a.kind.Skip?) && a.departmentId.None? then []
    else [U.Link(if a.departmentId.Some? then a.departmentId.value else -a.oaId, Some(a.oaId))]
  }

  function PostDepartmentInputs(actions: seq<D.DepartmentAction>): seq<U.Link> {
    if actions == [] then []
    else PostDepartmentInputs(actions[..|actions| - 1]) + LinkOf(actions[|actions| - 1])
  }

  method BuildPostDepartmentInputs(actions: seq<D.DepartmentAction>) returns (links: seq<U.Link>)
    ensures links == PostDepartmentInputs(actions)
  {
    links := [];
    for i := 0 to |actions|
      invariant links == PostDepartmentInputs(actions[..i])
    {
      assert actions[..i + 1][..i] == actions[..i];
      var a := actions[i];
      if (a.kind.Conflict? || a.kind.Skip?) && a.departmentId.None? {
        continue;
      }
      var departmentId := if a.departmentId.Some? then a.departmentId.value else -a.oaId;
      links := links + [U.Link(departmentId, Some(a.oaId))];
    }
    assert actions[..|actions|] == actions;
  }

  /** Of department k the first i actions give the one link the planner mapped it to, or none. */
  ghost predicate LinkedAsMapped(existing: seq<D.Entry>, departments: seq<OaDepartment>, i: nat, k: int)
    requires i <= |departments|
  {
    var mapped := D.PlanAt(existing, departments, i).mapped;
    U.DepartmentsOf(PostDepartmentInputs(D.Plan(existing, departments)[..i]), k) == if k in mapped then [mapped[k]] else []
  }

  ghost predicate DistinctIds(departments: seq<OaDepartment>) {
    forall a, b :: 0 <= a < b < |departments| ==> departments[a].oaId != departments[b].oaId
  }

  lemma {:induction false} DryLinks(existing: seq<D.Entry>, departments: seq<OaDepartment>, i: nat, k: int)
    requires i <= |departments| && DistinctIds(departments)
    ensures LinkedAsMapped(existing, departments, i, k)
  {
    hide *;
    if i == 0 {
      NothingLinked(existing, departments, k);
    } else {
      DryLinks(existing, departments, i - 1, k);
      OneMoreLinked(existing, departments, i - 1, k);
    }
  }

  lemma {:induction false} NothingLinked(existing: seq<D.Entry>, departments: seq<OaDepartment>, k: int)
    ensures LinkedAsMapped(existing, departments, 0, k)
  {
    hide D.Index;
  }

  lemma {:induction false} OneMoreLinked(existing: seq<D.Entry>, departments: seq<OaDepartment>, i: nat, k: int)
    requires i < |departments| && DistinctIds(departments) && LinkedAsMapped(existing, departments, i, k)
    ensures LinkedAsMapped(existing, departments, i + 1, k)
  {
    hide DistinctIds, D.Planner.Decided, D.Planner.Noted, LinkOf, U.DepartmentsOf, PostDepartmentInputs, D.Index;
    var plan := D.Plan(existing, departments);
    var p, d := D.PlanAt(existing, departments, i), departments[i];
    assert plan[i] == p.Decided(d) && D.PlanAt(existing, departments, i + 1) == p.Noted(d);
    hide D.Plan, D.PlanAt;
    UnmappedYet(existing, departments, i, i);
    OneLinkMore(p, d);
    PostOneMore(plan, i);
    OneDepartmentMore(PostDepartmentInputs(plan[..i]), LinkOf(plan[i]), k);
  }

  lemma {:induction false} PostOneMore(actions: seq<D.DepartmentAction>, i: nat)
    requires i < |actions|
    ensures PostDepartmentInputs(actions[..i + 1]) == PostDepartmentInputs(actions[..i]) + LinkOf(actions[i])
  {
    assert actions[..i + 1][..i] == actions[..i];
  }

  lemma {:induction false} UnmappedYet(existing: seq<D.Entry>, departments: seq<OaDepartment>, i: nat, k: nat)
    requires i <= k < |departments| && DistinctIds(departments)
    ensures departments[k].oaId !in D.PlanAt(existing, departments, i).mapped
  {
    if i > 0 {
      UnmappedYet(existing, departments, i - 1, k);
    }
  }

  lemma {:induction false} OneLinkMore(p: D.Planner, d: OaDepartment)
    requires d.oaId !in p.mapped
    ensures
      var mapped, mapped' := p.mapped, p.Noted(d).mapped;
      if LinkOf(p.Decided(d)) == [] then mapped' == mapped
      else d.oaId in mapped' && mapped' == mapped[d.oaId := mapped'[d.oaId]]
           && LinkOf(p.Decided(d)) == [U.Link(mapped'[d.oaId], Some(d.oaId))]
  {
  }

  lemma {:induction false} OneDepartmentMore(links: seq<U.Link>, more: seq<U.Link>, k: int)
    requires |more| <= 1
    ensures U.DepartmentsOf(links + more, k)
         == U.DepartmentsOf(links, k) + if more != [] && more[0].oaId == Some(k) then [more[0].departmentId] else []
  {
    if more == [] {
      assert links + more == links;
    } else {
      assert (links + more)[..|links|] == links;
    }
  }

  // ---- The departments a run that writes gives to the user planner --------------------------------

  /** Every row of the table once, in any order. */
  ghost predicate ListsLinks(links: seq<U.Link>, t: D.Table) {
    && (forall i, j :: 0 <= i < j < |links| ==> links[i].departmentId != links[j].departmentId)
    && (forall l :: l in links ==> l.departmentId in t.rows && t.rows[l.departmentId].oaId == l.oaId)
    && (forall id :: id in t.rows ==> U.Link(id, t.rows[id].oaId) in links)
  }

  lemma {:induction false} LinksOf(links: seq<U.Link>, k: int, ids: seq<int>)
    requires forall i, j :: 0 <= i < j < |links| ==> links[i].departmentId != links[j].departmentId
    requires |ids| <= 1
    requires forall l :: l in links && l.oaId == Some(k) ==> ids == [l.departmentId]
    requires ids != [] ==> U.Link(ids[0], Some(k)) in links
    ensures U.DepartmentsOf(links, k) == ids
  {
    if links != [] {
      var init, last := links[..|links| - 1], links[|links| - 1];
      assert forall l :: l in links <==> l in init || l == last;
      if last.oaId == Some(k) {
        assert last in links && ids == [last.departmentId];
        forall l | l in init ensures l.oaId != Some(k) {
          assert l in links;
        }
        LinksOf(init, k, []);
      } else {
        assert forall l :: l in init ==> l in links;
        LinksOf(init, k, ids);
      }
    }
  }

  /** A row of the table that carries an identity is one that the plan has matched. */
  ghost predicate NoStrangers(t: D.Table, actions: seq<D.DepartmentAction>) {
    forall id :: id in t.rows && t.rows[id].oaId.Some? ==>
      exists j :: 0 <= j < |actions| && actions[j].departmentId == Some(id)
  }

  /** Action i names a row, and the planner before department j still has the department mapped to it. */
  ghost predicate StillMapped(existing: seq<D.Entry>, departments: seq<OaDepartment>, i: nat, j: nat)
    requires i < |departments| && j <= |departments|
  {
    var mapped, oaId := D.PlanAt(existing, departments, j).mapped, departments[i].oaId;
    oaId in mapped && D.PlanAt(existing, departments, i).Decided(departments[i]).departmentId == Some(mapped[oaId])
  }

  lemma {:induction false} MappedStays(existing: seq<D.Entry>, departments: seq<OaDepartment>, i: nat, j: nat)
    requires i < j <= |departments| && DistinctIds(departments)
    requires D.PlanAt(existing, departments, i).Decided(departments[i]).departmentId.Some?
    ensures StillMapped(existing, departments, i, j)
    decreases j
  {
    hide D.Planner.Decided, D.Planner.Noted, D.Index;
    if i == j - 1 {
      DecidedMaps(D.PlanAt(existing, departments, i), departments[i]);
    } else {
      MappedStays(existing, departments, i, j - 1);
      NotedMaps(D.PlanAt(existing, departments, j - 1), departments[j - 1], departments[i].oaId);
    }
  }

  lemma {:induction false} DecidedMaps(p: D.Planner, d: OaDepartment)
    requires p.Decided(d).departmentId.Some?
    ensures d.oaId in p.Noted(d).mapped && p.Decided(d).departmentId == Some(p.Noted(d).mapped[d.oaId])
  {
  }

  lemma {:induction false} NotedMaps(p: D.Planner, d: OaDepartment, k: int)
    requires k != d.oaId && k in p.mapped
    ensures k in p.Noted(d).mapped && p.Noted(d).mapped[k] == p.mapped[k]
  {
  }

  /** The hypotheses of both runs: a sound table, a sound input, and a plan without conflicts. */
  ghost predicate Plannable(t: D.Table, existing: seq<D.Entry>, departments: seq<OaDepartment>) {
    && DS.SoundTable(t) && DS.Lists(existing, t) && DS.SoundInput(departments)
    && DS.ConflictFree(D.Plan(existing, departments))
  }

  lemma {:induction false} AppliedInStep(t: D.Table, existing: seq<D.Entry>, departments: seq<OaDepartment>)
    requires Plannable(t, existing, departments) && D.Applied(t, D.Plan(existing, departments)).Success?
    ensures DS.InStep(t, existing, departments, |departments|, D.PlanAt(existing, departments, |departments|),
                      D.Applied(t, D.Plan(existing, departments)).value)
  {
    DR.AlwaysInStep(t, existing, departments, |departments|);
    hide DS.InStep, DS.SoundTable, DS.Lists, DS.SoundInput, DS.ConflictFree;
  }

  lemma {:induction false} DistinctInput(departments: seq<OaDepartment>)
    requires DS.SoundInput(departments)
    ensures DistinctIds(departments)
  {
  }

  /** A row carrying an identity after the plan belongs to the department of that identity. */
  lemma {:induction false} CarriersAreMapped(
      t: D.Table, existing: seq<D.Entry>, departments: seq<OaDepartment>, p: D.Planner, x: D.Session, id: int, k: int)
    requires Plannable(t, existing, departments) && NoStrangers(t, D.Plan(existing, departments))
    requires p == D.PlanAt(existing, departments, |departments|)
    requires DS.InStep(t, existing, departments, |departments|, p, x)
    requires id in x.table.rows && x.table.rows[id].oaId == Some(k)
    ensures k in x.mapped && x.mapped[k] == id
  {
    if id in t.rows && t.rows[id] == x.table.rows[id] {
      MatchedIsInImage(t, existing, departments, p, x, id);
    }
    assert DS.InImage(x, id);
    var own :| own in x.mapped && x.mapped[own] == id;
    MappedRow(departments, x, own);
    hide DS.InStep, DS.SoundTable, DS.Lists, DS.SoundInput, D.Plan, D.PlanAt;
  }

  lemma {:induction false} MatchedIsInImage(
      t: D.Table, existing: seq<D.Entry>, departments: seq<OaDepartment>, p: D.Planner, x: D.Session, id: int)
    requires DS.SoundTable(t) && DS.SoundInput(departments) && NoStrangers(t, D.Plan(existing, departments))
    requires p == D.PlanAt(existing, departments, |departments|) && DS.MappedAlike(t, p, x)
    requires id in t.rows && t.rows[id].oaId.Some?
    ensures DS.InImage(x, id)
  {
    var actions := D.Plan(existing, departments);
    var j :| 0 <= j < |actions| && actions[j].departmentId == Some(id);
    assert actions[j] == D.PlanAt(existing, departments, j).Decided(departments[j]);
    DistinctInput(departments);
    MappedStays(existing, departments, j, |departments|);
    var oaId := departments[j].oaId;
    assert oaId > 0 && oaId in p.mapped && p.mapped[oaId] == id;
    assert DS.SameImage(t, oaId, p.mapped[oaId], x.mapped[oaId]);
    assert oaId in x.mapped && x.mapped[oaId] == id;
    hide D.PlanAt, D.Plan, D.Planner.Decided;
  }

  lemma {:induction false} MappedRow(departments: seq<OaDepartment>, x: D.Session, k: int)
    requires DS.AllPlaced(departments, |departments|, x) && k in x.mapped
    ensures x.mapped[k] in x.table.rows && x.table.rows[x.mapped[k]].oaId == Some(k)
  {
    assert DS.Among(departments, |departments|, k);
    var j :| 0 <= j < |departments| && departments[j].oaId == k;
    assert DS.Placed(x, departments[j]);
  }

  lemma {:induction false} ActualLinks(
      t: D.Table, existing: seq<D.Entry>, departments: seq<OaDepartment>, p: D.Planner, x: D.Session,
      links: seq<U.Link>, k: int)
    requires Plannable(t, existing, departments) && NoStrangers(t, D.Plan(existing, departments))
    requires p == D.PlanAt(existing, departments, |departments|)
    requires DS.InStep(t, existing, departments, |departments|, p, x) && ListsLinks(links, x.table)
    ensures U.DepartmentsOf(links, k) == if k in x.mapped then [x.mapped[k]] else []
  {
    var ids := if k in x.mapped then [x.mapped[k]] else [];
    forall l | l in links && l.oaId == Some(k) ensures ids == [l.departmentId] {
      CarriersAreMapped(t, existing, departments, p, x, l.departmentId, k);
    }
    if k in x.mapped {
      MappedRow(departments, x, k);
    }
    LinksOf(links, k, ids);
    hide DS.InStep, Plannable, NoStrangers, U.DepartmentsOf, D.PlanAt;
  }
}
