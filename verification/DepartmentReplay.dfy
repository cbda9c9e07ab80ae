/**
 The executor replays the plan: it never meets a department without a parent or without its row, and
 planning again on the result finds nothing left to do.
 */
module DepartmentReplay {
  import opened DepartmentPlan
  import opened DepartmentSync
  import opened DepartmentTree
  import opened Stripping
  import opened Wrappers

  // ---- One department ----------------------------------------------------------------------------

  lemma {:induction false} PlannerMovesOn(
      t: Table, existing: seq<Entry>, departments: seq<OaDepartment>, i: nat, p: Planner, x: Session, id: int, table': Table)
    requires SoundInput(departments) && i < |departments| && AllPlaced(departments, i, x)
    requires MappedAlike(t, p, x) && KnownAlike(Index(existing), departments, i, p) && Agreed(t, departments, i, p, x)
    requires departments[i].code !in p.seen && Image(p.mapped, departments[i].parent).Some?
    requires
      var p' := p.Noted(departments[i]);
      SameImage(t, departments[i].oaId, p'.mapped[departments[i].oaId], id)
    requires id in t.rows ==> Harmless(t, id, departments[i])
    ensures
      var p', x' := p.Noted(departments[i]), Session(table', x.mapped[departments[i].oaId := id]);
      && MappedAlike(t, p', x') && Agreed(t, departments, i + 1, p', x')
      && KnownAlike(Index(existing), departments, i + 1, p')
  {
    var d := departments[i];
    NotYetMapped(departments, i, x);
    MappedGrows(t, p, x, d, id, table');
    AgreedGrows(t, departments, i, p, x, id, table');
    KnownGrows(Index(existing), departments, i, p);
    hide MappedAlike, KnownAlike, Agreed;
  }

  lemma {:induction false} MappedGrows(t: Table, p: Planner, x: Session, d: OaDepartment, id: int, table': Table)
    requires MappedAlike(t, p, x) && d.oaId !in x.mapped
    requires d.code !in p.seen && Image(p.mapped, d.parent).Some?
    requires SameImage(t, d.oaId, p.Noted(d).mapped[d.oaId], id)
    ensures MappedAlike(t, p.Noted(d), Session(table', x.mapped[d.oaId := id]))
  {
    hide SameImage, Image;
  }

  lemma {:induction false} AgreedGrows(t: Table, departments: seq<OaDepartment>, i: nat, p: Planner, x: Session, id: int, table': Table)
    requires i < |departments| && Agreed(t, departments, i, p, x)
    requires forall j :: 0 <= j < i ==> departments[j].oaId != departments[i].oaId
    requires id in t.rows ==> Harmless(t, id, departments[i])
    ensures Agreed(t, departments, i + 1, p.Noted(departments[i]), Session(table', x.mapped[departments[i].oaId := id]))
  {
    assert departments[i].code in p.Noted(departments[i]).seen && p.seen <= p.Noted(departments[i]).seen;
    hide Harmless, Image, Planner.Noted;
  }

  lemma {:induction false} KnownGrows(index: map<Key, Known>, departments: seq<OaDepartment>, i: nat, p: Planner)
    requires i < |departments| && departments[i].oaId > 0 && KnownAlike(index, departments, i, p)
    ensures KnownAlike(index, departments, i + 1, p.Noted(departments[i]))
  {
    var d := departments[i];
    var created := (Some(-d.oaId), d.name);
    assert d.oaId > 0 && !IsReal(created);
    if p.Noted(d).known == p.known {
      KnownStays(index, departments, i, p, p.Noted(d));
    } else {
      KnownCreated(index, departments, i, p, p.Noted(d), created);
    }
    hide KnownAlike, IsReal;
  }

  lemma {:induction false} KnownStays(index: map<Key, Known>, departments: seq<OaDepartment>, i: nat, p: Planner, p': Planner)
    requires i < |departments| && KnownAlike(index, departments, i, p) && p'.known == p.known
    ensures KnownAlike(index, departments, i + 1, p')
  {
    forall key | key in p'.known && !IsReal(key) ensures IsPlaceholder(p', departments, i + 1, key) {
      assert IsPlaceholder(p, departments, i, key);
      var j :| 0 <= j < i && PlaceholderOf(p, departments[j], key);
      assert PlaceholderOf(p', departments[j], key);
    }
    hide IsReal, PlaceholderOf;
  }

  lemma {:induction false} KnownCreated(
      index: map<Key, Known>, departments: seq<OaDepartment>, i: nat, p: Planner, p': Planner, created: Key)
    requires i < |departments| && KnownAlike(index, departments, i, p) && !IsReal(created)
    requires
      var d := departments[i];
      created == (Some(-d.oaId), d.name) && p'.known == p.known[created := Known(-d.oaId, Some(d.code), Some(d.oaId))]
    ensures KnownAlike(index, departments, i + 1, p')
  {
    forall key | key in p'.known && !IsReal(key) ensures IsPlaceholder(p', departments, i + 1, key) {
      if key == created {
        assert PlaceholderOf(p', departments[i], key);
      } else {
        assert IsPlaceholder(p, departments, i, key);
        var j :| 0 <= j < i && PlaceholderOf(p, departments[j], key);
        assert PlaceholderOf(p', departments[j], key);
      }
    }
    hide IsReal, PlaceholderOf;
  }

  /** Whether the database refuses an identity can be told from the table as it was before the plan. */
  lemma {:induction false} ClaimsAgree(t: Table, departments: seq<OaDepartment>, i: nat, p: Planner, x: Session, id: int)
    requires SoundTable(t) && SoundInput(departments) && i < |departments|
    requires AllPlaced(departments, i, x) && Preserved(t, x) && Agreed(t, departments, i, p, x)
    requires departments[i].code !in p.seen
    ensures x.table.Claimed(id, departments[i].code, departments[i].oaId)
        <==> t.Claimed(id, departments[i].code, departments[i].oaId)
  {
    var d := departments[i];
    forall other | InImage(x, other)
      ensures other in x.table.rows && !Carries(x.table.rows[other], d.code, d.oaId)
      ensures other in t.rows ==> !Carries(t.rows[other], d.code, d.oaId)
    {
      OwnedRowsDoNotClaim(t, departments, i, p, x, other);
    }
    if t.Claimed(id, d.code, d.oaId) {
      var other :| other in t.rows && other != id && Carries(t.rows[other], d.code, d.oaId);
      assert !InImage(x, other) && x.table.rows[other] == t.rows[other];
    }
    if x.table.Claimed(id, d.code, d.oaId) {
      var other :| other in x.table.rows && other != id && Carries(x.table.rows[other], d.code, d.oaId);
      assert !InImage(x, other) && other in t.rows;
    }
    hide InImage, Carries;
  }

  lemma {:induction false} OwnedRowsDoNotClaim(t: Table, departments: seq<OaDepartment>, i: nat, p: Planner, x: Session, other: int)
    requires SoundInput(departments) && i < |departments|
    requires AllPlaced(departments, i, x) && Agreed(t, departments, i, p, x)
    requires departments[i].code !in p.seen && InImage(x, other)
    ensures other in x.table.rows && !Carries(x.table.rows[other], departments[i].code, departments[i].oaId)
    ensures other in t.rows ==> !Carries(t.rows[other], departments[i].code, departments[i].oaId)
  {
    var k :| k in x.mapped && x.mapped[k] == other;
    assert Among(departments, i, k);
    var j :| 0 <= j < i && departments[j].oaId == k;
    assert Placed(x, departments[j]);
    assert IsComplete(departments[i]) && departments[i].oaId > 0;
  }

  lemma {:induction false} SkippedInStep(
      t: Table, existing: seq<Entry>, departments: seq<OaDepartment>, i: nat, p: Planner, x: Session)
    requires SoundInput(departments) && i < |departments| && InStep(t, existing, departments, i, p, x)
    requires departments[i].code in p.seen || Image(p.mapped, departments[i].parent).None?
    ensures InStep(t, existing, departments, i + 1, p.Noted(departments[i]), x)
  {
    var d := departments[i];
    assert p.Noted(d).mapped == p.mapped && d.code in p.Noted(d).seen && p.seen <= p.Noted(d).seen;
    hide Planner.Noted;
    NotYetMapped(departments, i, x);
    KnownGrows(Index(existing), departments, i, p);
    AllAmongStill(departments, i, x.mapped);
    SkippedAgrees(t, departments, i, p, x, p.Noted(d));
    hide SoundInput, SoundTable, Placed, Preserved, KnownAlike, AllAmong, Agreed, SameImage;
  }

  lemma {:induction false} AllAmongStill(departments: seq<OaDepartment>, i: nat, mapped: map<int, int>)
    requires i < |departments| && AllAmong(departments, i, mapped)
    ensures AllAmong(departments, i + 1, mapped)
  {
    forall k | k in mapped ensures Among(departments, i + 1, k) {
      assert Among(departments, i, k);
    }
  }

  lemma {:induction false} SkippedAgrees(t: Table, departments: seq<OaDepartment>, i: nat, p: Planner, x: Session, p': Planner)
    requires i < |departments| && Agreed(t, departments, i, p, x) && departments[i].oaId !in x.mapped
    requires p.seen <= p'.seen && departments[i].code in p'.seen
    ensures Agreed(t, departments, i + 1, p', x)
  {
    hide Harmless;
  }

  /** The step is refused by the database or taken, and if it is taken planner and executor stay in step. */
  ghost predicate StepAgrees(
      t: Table, existing: seq<Entry>, departments: seq<OaDepartment>, i: nat, p: Planner, x: Session)
    requires i < |departments|
  {
    var a := p.Decided(departments[i]);
    var run := x.Executed(a);
    if Refused(t, a) then run == Failure(Duplicate)
    else run.Success? && InStep(t, existing, departments, i + 1, p.Noted(departments[i]), run.value)
  }

  lemma {:induction false} MatchFacts(t: Table, p: Planner, d: OaDepartment, at: Option<int>, id: int)
    requires d.code !in p.seen && at == Image(p.mapped, d.parent) && at.Some? && id in t.rows
    requires (at, d.name) in p.known && p.known[(at, d.name)] == KnownOf(id, t.rows[id]) && !KnownOf(id, t.rows[id]).Differs(d)
    requires KeyOf(t.rows[id]) == (at, d.name)
    ensures d.oaId in p.Noted(d).mapped && p.Noted(d).mapped[d.oaId] == id
    ensures t.rows[id].parent == at && Harmless(t, id, d) && SameImage(t, d.oaId, id, id)
  {
  }

  lemma {:induction false} MatchStep(t: Table, existing: seq<Entry>, departments: seq<OaDepartment>, i: nat, p: Planner, x: Session)
    requires SoundTable(t) && Lists(existing, t) && SoundInput(departments) && i < |departments|
    requires InStep(t, existing, departments, i, p, x)
    requires departments[i].code !in p.seen && Image(p.mapped, departments[i].parent).Some?
    requires (Image(p.mapped, departments[i].parent), departments[i].name) in p.known
    requires !p.known[(Image(p.mapped, departments[i].parent), departments[i].name)].Differs(departments[i])
    ensures StepAgrees(t, existing, departments, i, p, x)
  {
    hide Session.Executed, Planner.Decided, Planner.Noted, Table.Identified, Table.Claimed, Image, SoundInput, SoundTable,
         AllPlaced, MappedAlike, KnownAlike, Agreed, Preserved, Lists, KeyOf, SameImage, Harmless, Known.Differs,
         InImage, Refused, Index;
    var d := departments[i];
    var at := Image(p.mapped, d.parent);
    var id := p.known[(at, d.name)].id;
    MatchIsReal(t, existing, departments, i, p, x, at);
    MatchFacts(t, p, d, at, id);
    RowStays(t, x, id);
    MatchKeepsRows(t, departments, i, x, id);
    MatchIsFree(t, departments, i, x, id);
    PlannerMovesOn(t, existing, departments, i, p, x, id, x.table.Identified(id, d.code, d.oaId));
    ClaimsAgree(t, departments, i, p, x, id);
    MatchExecuted(t, p, x, d, at, id);
  }

  lemma {:induction false} RowStays(t: Table, x: Session, id: int)
    requires Preserved(t, x) && id in t.rows
    ensures id in x.table.rows && KeepsPlace(t.rows[id], x.table.rows[id])
  {
  }

  lemma {:induction false} MatchExecuted(t: Table, p: Planner, x: Session, d: OaDepartment, at: Option<int>, id: int)
    requires d.code !in p.seen && at == Image(p.mapped, d.parent) == Image(x.mapped, d.parent) && at.Some?
    requires SoundTable(t) && Preserved(t, x) && id in t.rows && t.rows[id].parent == at && !InImage(x, id)
    requires (at, d.name) in p.known && p.known[(at, d.name)] == KnownOf(id, t.rows[id])
    requires !p.known[(at, d.name)].Differs(d)
    requires x.table.Claimed(id, d.code, d.oaId) <==> t.Claimed(id, d.code, d.oaId)
    ensures
      var a := p.Decided(d);
      x.Executed(a) == if Refused(t, a) then Failure(Duplicate) else Success(Matched(x, d, id))
  {
    var a := p.Decided(d);
    assert a.departmentId == Some(id) && (a.kind == Skip || a.kind == UpdateIdentity);
    RowStays(t, x, at.value);
    RowStays(t, x, id);
    assert a.oaId == d.oaId && a.code == d.code && a.parent == d.parent;
    if a.kind == Skip {
      assert x.table.rows[id] == t.rows[id].(code := Some(d.code), oaId := Some(d.oaId));
      assert x.table.Identified(id, d.code, d.oaId).rows == x.table.rows;
      assert !Refused(t, a);
    } else {
      ClaimedMeansElsewhere(t, a, id);
    }
    hide Table.Claimed, ClaimedElsewhere, InImage;
  }

  lemma {:induction false} ClaimedMeansElsewhere(t: Table, a: DepartmentAction, id: int)
    requires a.departmentId == Some(id) || (a.departmentId == None && id !in t.rows)
    ensures t.Claimed(id, a.code, a.oaId) <==> ClaimedElsewhere(t, a)
  {
    hide Carries;
  }

  lemma {:induction false} CreateStep(t: Table, existing: seq<Entry>, departments: seq<OaDepartment>, i: nat, p: Planner, x: Session)
    requires SoundTable(t) && Lists(existing, t) && SoundInput(departments) && i < |departments|
    requires InStep(t, existing, departments, i, p, x)
    requires departments[i].code !in p.seen && Image(p.mapped, departments[i].parent).Some?
    requires (Image(p.mapped, departments[i].parent), departments[i].name) !in p.known
    ensures StepAgrees(t, existing, departments, i, p, x)
  {
    var d := departments[i];
    var id := x.table.next;
    NewNameIsFree(t, existing, departments, i, p, x);
    var parent := Image(x.mapped, d.parent).value;
    ParentIsRow(t, departments, i, p, x, d.parent);
    CreateKeepsRows(t, departments, i, x, parent);
    assert id !in t.rows && id >= t.next;
    PlannerMovesOn(t, existing, departments, i, p, x, id, Created(x, d, parent).table);
    ClaimsAgree(t, departments, i, p, x, id);
    CreateExecuted(t, p, x, d, parent);
    hide Session.Executed, Planner.Decided, Planner.Noted, Created, Image, SoundInput, SoundTable, AllPlaced,
         MappedAlike, KnownAlike, Agreed, Preserved, Lists, KeyOf, KeyIsFree;
  }

  lemma {:induction false} ParentIsRow(t: Table, departments: seq<OaDepartment>, i: nat, p: Planner, x: Session, parent: Option<int>)
    requires SoundTable(t) && i < |departments| && MappedAlike(t, p, x) && AllPlaced(departments, i, x) && Preserved(t, x)
    requires Image(x.mapped, parent).Some?
    ensures Image(x.mapped, parent).value in x.table.rows
  {
    if parent.Some? {
      assert Among(departments, i, parent.value);
    }
  }

  lemma {:induction false} CreateExecuted(t: Table, p: Planner, x: Session, d: OaDepartment, parent: int)
    requires d.code !in p.seen && Image(p.mapped, d.parent).Some? && (Image(p.mapped, d.parent), d.name) !in p.known
    requires Image(x.mapped, d.parent) == Some(parent) && parent in x.table.rows && x.table.next !in t.rows
    requires KeyIsFree(x.table, (Some(parent), d.name)) && Strip(d.name) == d.name
    requires x.table.Claimed(x.table.next, d.code, d.oaId) <==> t.Claimed(x.table.next, d.code, d.oaId)
    ensures
      var a := p.Decided(d);
      x.Executed(a) == if Refused(t, a) then Failure(Duplicate) else Success(Created(x, d, parent))
  {
    var a := p.Decided(d);
    assert a.kind == Create && a.departmentId == None;
    NameIsFree(x.table, parent, d.name);
    ClaimedMeansElsewhere(t, a, x.table.next);
    hide Table.Claimed, ClaimedElsewhere, KeyIsFree, Table.NameTaken;
  }

  lemma {:induction false} NameIsFree(t: Table, parent: int, name: string)
    requires KeyIsFree(t, (Some(parent), name)) && Strip(name) == name
    ensures !t.NameTaken(parent, name)
  {
  }

  lemma {:induction false} OneStep(t: Table, existing: seq<Entry>, departments: seq<OaDepartment>, i: nat, p: Planner, x: Session)
    requires SoundTable(t) && Lists(existing, t) && SoundInput(departments) && i < |departments|
    requires InStep(t, existing, departments, i, p, x)
    requires p.Decided(departments[i]).kind != Conflict
    ensures StepAgrees(t, existing, departments, i, p, x)
  {
    var d := departments[i];
    var at := Image(p.mapped, d.parent);
    if d.code in p.seen || at.None? {
      SkippedInStep(t, existing, departments, i, p, x);
    } else if (at, d.name) in p.known {
      MatchStep(t, existing, departments, i, p, x);
    } else {
      CreateStep(t, existing, departments, i, p, x);
    }
    hide InStep, SoundTable, SoundInput, Lists;
  }

  // ---- The whole plan ----------------------------------------------------------------------------

  ghost predicate Unclaimed(t: Table, actions: seq<DepartmentAction>, i: nat)
    requires i <= |actions|
  {
    forall j :: 0 <= j < i ==> !Refused(t, actions[j])
  }

  lemma {:induction false} InStepAtFirst(t: Table, existing: seq<Entry>, departments: seq<OaDepartment>)
    requires SoundTable(t) && Lists(existing, t)
    ensures InStep(t, existing, departments, 0, PlanAt(existing, departments, 0), Session(t, map[]))
  {
    forall key | key in Index(existing) ensures IsReal(key) {
      IndexedRow(existing, t, key);
    }
  }

  /** The executor has been refused by the database, or it is in step with the planner. */
  ghost predicate RunAgrees(t: Table, existing: seq<Entry>, departments: seq<OaDepartment>, i: nat)
    requires i <= |departments|
  {
    var actions := Plan(existing, departments);
    var run := AppliedAt(t, actions, i);
    if Unclaimed(t, actions, i)
    then run.Success? && InStep(t, existing, departments, i, PlanAt(existing, departments, i), run.value)
    else run == Failure(Duplicate)
  }

  lemma {:induction false} AlwaysInStep(t: Table, existing: seq<Entry>, departments: seq<OaDepartment>, i: nat)
    requires SoundTable(t) && Lists(existing, t) && SoundInput(departments) && i <= |departments|
    requires ConflictFree(Plan(existing, departments))
    ensures RunAgrees(t, existing, departments, i)
  {
    hide *;
    if i == 0 {
      AgreesAtFirst(t, existing, departments);
    } else {
      AlwaysInStep(t, existing, departments, i - 1);
      OneMoreAgrees(t, existing, departments, i);
    }
  }

  lemma {:induction false} AgreesAtFirst(t: Table, existing: seq<Entry>, departments: seq<OaDepartment>)
    requires SoundTable(t) && Lists(existing, t)
    ensures RunAgrees(t, existing, departments, 0)
  {
    InStepAtFirst(t, existing, departments);
    hide InStep, SoundTable, Lists, Index;
  }

  lemma {:induction false} OneMoreAgrees(t: Table, existing: seq<Entry>, departments: seq<OaDepartment>, i: nat)
    requires SoundTable(t) && Lists(existing, t) && SoundInput(departments) && 0 < i <= |departments|
    requires ConflictFree(Plan(existing, departments)) && RunAgrees(t, existing, departments, i - 1)
    ensures RunAgrees(t, existing, departments, i)
  {
    hide InStep, SoundTable, SoundInput, Lists, Refused, Index, Planner.Decided, Planner.Noted, Session.Executed;
    var actions := Plan(existing, departments);
    var p := PlanAt(existing, departments, i - 1);
    assert actions[i - 1] == p.Decided(departments[i - 1]) && actions[i - 1].kind != Conflict;
    assert Unclaimed(t, actions, i) <==> Unclaimed(t, actions, i - 1) && !Refused(t, actions[i - 1]);
    if Unclaimed(t, actions, i - 1) {
      OneStep(t, existing, departments, i - 1, p, AppliedAt(t, actions, i - 1).value);
    }
    hide Unclaimed, Plan, ConflictFree;
  }

  /**
   A plan without conflicts, applied: it fails only where the database finds another row with the code
   or the identity of some action, and exactly then; no parent and no row is ever missing.
   */
  lemma {:induction false} PlanAppliesIff(t: Table, existing: seq<Entry>, departments: seq<OaDepartment>)
    requires SoundTable(t) && Lists(existing, t) && SoundInput(departments)
    requires ConflictFree(Plan(existing, departments))
    ensures
      var actions := Plan(existing, departments);
      && (Applied(t, actions).Success? <==> forall a :: a in actions ==> !Refused(t, a))
      && (Applied(t, actions).Failure? ==> Applied(t, actions).error == Duplicate)
  {
    AlwaysInStep(t, existing, departments, |departments|);
    hide InStep;
  }

  // ---- Which departments are mapped ----------------------------------------------------------------

  predicate IsFirst(departments: seq<OaDepartment>, i: nat)
    requires i < |departments|
  {
    forall j :: 0 <= j < i ==> departments[j].code != departments[i].code
  }

  /** A department is kept when no earlier one has its code, and its parent is the top or is kept. */
  function KeptIds(departments: seq<OaDepartment>, i: nat): set<int>
    requires i <= |departments|
  {
    if i == 0 then {}
    else
      var d, kept := departments[i - 1], KeptIds(departments, i - 1);
      if IsFirst(departments, i - 1) && (d.parent.None? || d.parent.value in kept) then kept + {d.oaId} else kept
  }

  predicate SeenBefore(departments: seq<OaDepartment>, i: nat, code: string)
    requires i <= |departments|
  {
    exists j :: 0 <= j < i && departments[j].code == code
  }

  /** Which departments are mapped does not depend on the table. */
  lemma {:induction false} PlannerKeeps(existing: seq<Entry>, departments: seq<OaDepartment>, i: nat)
    requires i <= |departments|
    ensures PlanAt(existing, departments, i).mapped.Keys == KeptIds(departments, i)
    ensures forall code :: code in PlanAt(existing, departments, i).seen <==> SeenBefore(departments, i, code)
  {
    if i > 0 {
      PlannerKeeps(existing, departments, i - 1);
      var p, d := PlanAt(existing, departments, i - 1), departments[i - 1];
      assert d.code in p.seen <==> !IsFirst(departments, i - 1);
      assert Image(p.mapped, d.parent).Some? <==> d.parent.None? || d.parent.value in p.mapped.Keys;
      forall code ensures SeenBefore(departments, i, code) <==> SeenBefore(departments, i - 1, code) || code == d.code {
      }
    }
  }

  /** A list of parents before children without repeated codes is kept whole. */
  lemma {:induction false} AllAreKept(departments: seq<OaDepartment>, i: nat)
    requires TopDown(departments, None) && i <= |departments|
    requires forall j :: 0 <= j < |departments| ==> IsFirst(departments, j)
    ensures forall j :: 0 <= j < i ==> departments[j].oaId in KeptIds(departments, i)
  {
    if i > 0 {
      AllAreKept(departments, i - 1);
      assert IsFirst(departments, i - 1);
      assert departments[i - 1].parent == None || Listed(departments[..i - 1], departments[i - 1].parent);
    }
  }

  /**
   After a plan has been applied every kept department has its row, with its name, code and identity,
   under the row of its parent; every other row is as it was, and rows keep their names and parents.
   */
  lemma {:induction false} EveryDepartmentIsPlaced(t: Table, existing: seq<Entry>, departments: seq<OaDepartment>)
    requires SoundTable(t) && Lists(existing, t) && SoundInput(departments)
    requires ConflictFree(Plan(existing, departments)) && Applied(t, Plan(existing, departments)).Success?
    ensures
      var x := Applied(t, Plan(existing, departments)).value;
      && x.mapped.Keys == KeptIds(departments, |departments|)
      && (forall i :: 0 <= i < |departments| && departments[i].oaId in x.mapped ==> Placed(x, departments[i]))
      && Preserved(t, x) && SoundTable(x.table)
  {
    AlwaysInStep(t, existing, departments, |departments|);
    PlannerKeeps(existing, departments, |departments|);
  }

  predicate KeepsIdentity(before: Row, after: Row) {
    && (KnownOf(0, before).HasCode() ==> after.code == before.code)
    && (KnownOf(0, before).HasId() ==> after.oaId == before.oaId)
  }

  /** A plan without conflicts overwrites no code and no identity that a row already has. */
  lemma {:induction false} IdentitiesAreKept(t: Table, existing: seq<Entry>, departments: seq<OaDepartment>, id: int)
    requires SoundTable(t) && Lists(existing, t) && SoundInput(departments) && id in t.rows
    requires ConflictFree(Plan(existing, departments)) && Applied(t, Plan(existing, departments)).Success?
    ensures
      var x := Applied(t, Plan(existing, departments)).value;
      id in x.table.rows && KeepsIdentity(t.rows[id], x.table.rows[id])
  {
    var x := Applied(t, Plan(existing, departments)).value;
    AlwaysInStep(t, existing, departments, |departments|);
    var p := PlanAt(existing, departments, |departments|);
    assert Preserved(t, x) && AllPlaced(departments, |departments|, x) && Agreed(t, departments, |departments|, p, x);
    if InImage(x, id) {
      ImageKeepsIdentity(t, departments, p, x, id);
    }
    RowStays(t, x, id);
    hide SoundTable, Lists, SoundInput, Plan, AppliedAt, PlanAt, InImage, AllPlaced, Agreed;
  }

  lemma {:induction false} ImageKeepsIdentity(t: Table, departments: seq<OaDepartment>, p: Planner, x: Session, id: int)
    requires AllPlaced(departments, |departments|, x) && Agreed(t, departments, |departments|, p, x)
    requires id in t.rows && InImage(x, id)
    ensures id in x.table.rows && KeepsIdentity(t.rows[id], x.table.rows[id])
  {
    var k :| k in x.mapped && x.mapped[k] == id;
    assert Among(departments, |departments|, k);
    var j :| 0 <= j < |departments| && departments[j].oaId == k;
    assert Placed(x, departments[j]);
    assert Harmless(t, id, departments[j]);
  }

  // ---- Planning again ------------------------------------------------------------------------------

  ghost predicate Matches(p: Planner, x: Session) {
    forall k :: k in p.mapped ==> k in x.mapped && p.mapped[k] == x.mapped[k]
  }

  lemma {:induction false} ReplannedStep(existing: seq<Entry>, departments: seq<OaDepartment>, i: nat, p: Planner, x: Session)
    requires SoundTable(x.table) && Lists(existing, x.table) && i < |departments|
    requires IsComplete(departments[i]) && p.known == Index(existing) && Matches(p, x)
    requires departments[i].code !in p.seen && Image(p.mapped, departments[i].parent).Some? ==> Placed(x, departments[i])
    ensures p.Decided(departments[i]).kind == Skip
    ensures p.Noted(departments[i]).known == Index(existing) && Matches(p.Noted(departments[i]), x)
  {
    var d := departments[i];
    var at := Image(p.mapped, d.parent);
    if d.code in p.seen || at.None? {
      assert p.Decided(d).kind == Skip && p.Noted(d).known == p.known && p.Noted(d).mapped == p.mapped;
    } else {
      var id := x.mapped[d.oaId];
      ImageMatches(p, x, d.parent);
      assert KeyOf(x.table.rows[id]) == (at, d.name);
      IndexFinds(existing, x.table, id);
      FoundAgain(p, d, at, id, x.table.rows[id]);
    }
    hide SoundTable, Lists, KeyOf, Index, Placed, Planner.Decided, Planner.Noted, Image, IsComplete;
  }

  lemma {:induction false} ImageMatches(p: Planner, x: Session, parent: Option<int>)
    requires Matches(p, x) && Image(p.mapped, parent).Some?
    ensures Image(x.mapped, parent) == Image(p.mapped, parent)
  {
    if parent.Some? {
      var oaId: int := parent.value;
      assert oaId in p.mapped && p.mapped[oaId] == x.mapped[oaId];
    }
  }

  lemma {:induction false} FoundAgain(p: Planner, d: OaDepartment, at: Option<int>, id: int, row: Row)
    requires d.code !in p.seen && at == Image(p.mapped, d.parent) && at.Some?
    requires (at, d.name) in p.known && p.known[(at, d.name)] == KnownOf(id, row)
    requires row.code == Some(d.code) && row.oaId == Some(d.oaId) && IsComplete(d)
    ensures p.Decided(d).kind == Skip
    ensures p.Noted(d).known == p.known && p.Noted(d).mapped == p.mapped[d.oaId := id]
  {
  }

  lemma {:induction false} KeptIsPlaced(existing: seq<Entry>, departments: seq<OaDepartment>, i: nat, x: Session)
    requires i < |departments| && x.mapped.Keys == KeptIds(departments, |departments|)
    requires forall j :: 0 <= j < |departments| && departments[j].oaId in x.mapped ==> Placed(x, departments[j])
    ensures
      var p := PlanAt(existing, departments, i);
      departments[i].code !in p.seen && Image(p.mapped, departments[i].parent).Some? ==> Placed(x, departments[i])
  {
    var p, d := PlanAt(existing, departments, i), departments[i];
    PlannerKeeps(existing, departments, i);
    if d.code !in p.seen && Image(p.mapped, d.parent).Some? {
      assert IsFirst(departments, i);
      assert d.parent.None? || d.parent.value in p.mapped.Keys;
      assert d.oaId in KeptIds(departments, i + 1);
      KeptGrows(departments, i + 1, |departments|);
    }
    hide Placed, PlanAt;
  }

  /** Planning again, the first i departments have all been skipped. */
  ghost predicate OnlySkips(existing: seq<Entry>, departments: seq<OaDepartment>, i: nat, x: Session)
    requires i <= |departments|
  {
    && PlanAt(existing, departments, i).known == Index(existing) && Matches(PlanAt(existing, departments, i), x)
    && forall j :: 0 <= j < i ==> Plan(existing, departments)[j].kind == Skip
  }

  lemma {:induction false} ReplannedAt(existing: seq<Entry>, departments: seq<OaDepartment>, i: nat, x: Session)
    requires SoundTable(x.table) && Lists(existing, x.table) && SoundInput(departments) && i <= |departments|
    requires x.mapped.Keys == KeptIds(departments, |departments|)
    requires forall j :: 0 <= j < |departments| && departments[j].oaId in x.mapped ==> Placed(x, departments[j])
    ensures OnlySkips(existing, departments, i, x)
  {
    hide Placed, SoundTable, Lists, KeptIds, Image, Index, Planner.Decided, Planner.Noted, Matches, OnlySkips, PlanAt;
    if i == 0 {
      NothingPlanned(existing, departments, x);
    } else {
      ReplannedAt(existing, departments, i - 1, x);
      SkippedBefore(existing, departments, i - 1, x);
      KeptIsPlaced(existing, departments, i - 1, x);
      assert IsComplete(departments[i - 1]);
      ReplannedStep(existing, departments, i - 1, PlanAt(existing, departments, i - 1), x);
      OneMoreSkips(existing, departments, i - 1, x);
    }
  }

  lemma {:induction false} NothingPlanned(existing: seq<Entry>, departments: seq<OaDepartment>, x: Session)
    ensures OnlySkips(existing, departments, 0, x)
  {
  }

  lemma {:induction false} SkippedBefore(existing: seq<Entry>, departments: seq<OaDepartment>, i: nat, x: Session)
    requires i <= |departments| && OnlySkips(existing, departments, i, x)
    ensures PlanAt(existing, departments, i).known == Index(existing) && Matches(PlanAt(existing, departments, i), x)
  {
  }

  lemma {:induction false} OneMoreSkips(existing: seq<Entry>, departments: seq<OaDepartment>, i: nat, x: Session)
    requires i < |departments| && OnlySkips(existing, departments, i, x)
    requires
      var p, d := PlanAt(existing, departments, i), departments[i];
      p.Decided(d).kind == Skip && p.Noted(d).known == Index(existing) && Matches(p.Noted(d), x)
    ensures OnlySkips(existing, departments, i + 1, x)
  {
    hide Matches, Index, Planner.Decided, Planner.Noted;
  }

  lemma {:induction false} KeptGrows(departments: seq<OaDepartment>, i: nat, j: nat)
    requires i <= j <= |departments|
    ensures KeptIds(departments, i) <= KeptIds(departments, j)
    decreases j
  {
    if i < j {
      KeptGrows(departments, i, j - 1);
    }
  }

  /** Planning again on the table that a plan has produced, whatever the order of its rows, only skips. */
  lemma {:induction false} ReplanningOnlySkips(t: Table, existing: seq<Entry>, existing': seq<Entry>, departments: seq<OaDepartment>)
    requires SoundTable(t) && Lists(existing, t) && SoundInput(departments)
    requires ConflictFree(Plan(existing, departments)) && Applied(t, Plan(existing, departments)).Success?
    requires Lists(existing', Applied(t, Plan(existing, departments)).value.table)
    ensures forall a :: a in Plan(existing', departments) ==> a.kind == Skip
  {
    var x := Applied(t, Plan(existing, departments)).value;
    EveryDepartmentIsPlaced(t, existing, departments);
    ReplannedAt(existing', departments, |departments|, x);
  }
}
