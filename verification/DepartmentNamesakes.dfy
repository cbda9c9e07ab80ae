/**
 Which department plans have conflicts, on any platform: a department that finds its row taken by
 another identity, or one that is called like a parent yet to be created, because the planner notes a
 new department under the department itself and not under its parent (line 108).
 */
module DepartmentNamesakes {
  import opened DepartmentPlan
  import opened DepartmentReplay
  import opened DepartmentSync
  import opened DepartmentTree
  import opened Wrappers

  ghost predicate DistinctIds(departments: seq<OaDepartment>) {
    && (forall i :: 0 <= i < |departments| ==> departments[i].oaId > 0)
    && (forall i, j :: 0 <= i < j < |departments| ==> departments[i].oaId != departments[j].oaId)
  }

  // ---- Where the departments belong on the platform ------------------------------------------------

  predicate IsNamed(t: Table, id: int, parent: int, name: string) {
    id in t.rows && KeyOf(t.rows[id]) == (Some(parent), name)
  }

  ghost function RowNamed(t: Table, parent: int, name: string): Option<int> {
    if exists id :: IsNamed(t, id, parent, name) then
      var id :| IsNamed(t, id, parent, name);
      Some(id)
    else None
  }

  /** Every kept department has a row of the table, or none because it is yet to be created. */
  type Places = map<int, Option<int>>

  predicate ParentKept(places: Places, d: OaDepartment) {
    d.parent.None? || d.parent.value in places
  }

  /** The row of the parent, if it has one. */
  function ParentRow(places: Places, d: OaDepartment): Option<int> {
    if d.parent.None? then Some(ROOT) else if d.parent.value in places then places[d.parent.value] else None
  }

  ghost function FoundRow(t: Table, places: Places, d: OaDepartment): Option<int> {
    var at := ParentRow(places, d);
    if at.Some? then RowNamed(t, at.value, d.name) else None
  }

  ghost function PlacesOf(t: Table, departments: seq<OaDepartment>, i: nat): Places
    requires i <= |departments|
  {
    if i == 0 then map[]
    else
      var before, d := PlacesOf(t, departments, i - 1), departments[i - 1];
      if IsFirst(departments, i - 1) && ParentKept(before, d) then before[d.oaId := FoundRow(t, before, d)] else before
  }

  /** The row of that name under the parent's row carries another code or identity. */
  ghost predicate RowTaken(t: Table, places: Places, d: OaDepartment) {
    var found := FoundRow(t, places, d);
    found.Some? && found.value in t.rows && KnownOf(found.value, t.rows[found.value]).Differs(d)
  }

  /** The department is called like its parent, which has no row yet. */
  ghost predicate IsNamesake(departments: seq<OaDepartment>, i: nat, places: Places)
    requires i < |departments|
  {
    exists j :: 0 <= j < i && NamesakeOf(departments[i], departments[j], places)
  }

  predicate NamesakeOf(child: OaDepartment, parent: OaDepartment, places: Places) {
    child.parent == Some(parent.oaId) && child.name == parent.name && parent.oaId in places && places[parent.oaId].None?
  }

  /** Department i is kept, and clashes with a row or with its parent. */
  ghost predicate Clashes(t: Table, departments: seq<OaDepartment>, i: nat)
    requires i < |departments|
  {
    var places := PlacesOf(t, departments, i);
    && IsFirst(departments, i) && ParentKept(places, departments[i])
    && (RowTaken(t, places, departments[i]) || IsNamesake(departments, i, places))
  }

  // ---- The planner agrees until the first clash -------------------------------------------------------

  predicate NotedUnderItself(p: Planner, d: OaDepartment) {
    && (Some(-d.oaId), d.name) in p.known
    && p.known[(Some(-d.oaId), d.name)] == Known(-d.oaId, Some(d.code), Some(d.oaId))
  }

  predicate MappedTo(t: Table, places: Places, mapped: map<int, int>) {
    && mapped.Keys == places.Keys
    && forall k :: k in places ==>
         k > 0 && mapped[k] == places[k].GetOr(-k) && (places[k].Some? ==> places[k].value in t.rows)
  }

  ghost predicate NewAreNoted(departments: seq<OaDepartment>, i: nat, places: Places, p: Planner)
    requires i <= |departments|
  {
    forall j :: 0 <= j < i && departments[j].oaId in places && places[departments[j].oaId].None?
      ==> NotedUnderItself(p, departments[j])
  }

  ghost predicate Alike(t: Table, existing: seq<Entry>, departments: seq<OaDepartment>, i: nat, p: Planner)
    requires i <= |departments|
  {
    var places := PlacesOf(t, departments, i);
    && MappedTo(t, places, p.mapped)
    && NewAreNoted(departments, i, places, p)
    && KnownAlike(Index(existing), departments, i, p)
  }

  lemma {:induction false} ParentImage(t: Table, places: Places, p: Planner, d: OaDepartment)
    requires SoundTable(t) && MappedTo(t, places, p.mapped)
    ensures Image(p.mapped, d.parent).Some? <==> ParentKept(places, d)
    ensures
      var at, row := Image(p.mapped, d.parent), ParentRow(places, d);
      ParentKept(places, d) ==>
        if row.Some? then at == row && row.value in t.rows && row.value > 0
        else d.parent.Some? && d.parent.value > 0 && at == Some(-d.parent.value)
  {
    if d.parent.Some? {
      var parent: int := d.parent.value;
      assert parent in p.mapped <==> parent in places;
    }
  }

  /** Under a row of the table the planner knows exactly the rows of the table. */
  lemma {:induction false} RealLookup(
      t: Table, existing: seq<Entry>, departments: seq<OaDepartment>, i: nat, p: Planner, parent: int, name: string)
    requires SoundTable(t) && Lists(existing, t) && i <= |departments| && parent > 0
    requires KnownAlike(Index(existing), departments, i, p)
    ensures
      var key, row := (Some(parent), name), RowNamed(t, parent, name);
      && (key in p.known <==> row.Some?)
      && (row.Some? ==> row.value in t.rows && key in p.known && p.known[key] == KnownOf(row.value, t.rows[row.value]))
  {
    var key: Key := (Some(parent), name);
    assert IsReal(key);
    if key in Index(existing) {
      IndexedRow(existing, t, key);
      assert IsNamed(t, Index(existing)[key].id, parent, name);
    }
    var row := RowNamed(t, parent, name);
    if row.Some? {
      assert IsNamed(t, row.value, parent, name);
      IndexFinds(existing, t, row.value);
    }
    hide Index, Lists, SoundTable, IsReal, KeyOf;
  }

  lemma {:induction false} OnlyPlaceholders(
      index: map<Key, Known>, departments: seq<OaDepartment>, i: nat, p: Planner, parent: int, name: string)
    requires i <= |departments| && parent > 0 && KnownAlike(index, departments, i, p) && (Some(-parent), name) in p.known
    ensures exists j :: 0 <= j < i && departments[j].oaId == parent && departments[j].name == name
    ensures p.known[(Some(-parent), name)].oaId == Some(parent)
  {
    var key: Key := (Some(-parent), name);
    assert !IsReal(key);
    assert IsPlaceholder(p, departments, i, key);
    var j :| 0 <= j < i && PlaceholderOf(p, departments[j], key);
    assert departments[j].oaId == parent && departments[j].name == name;
    hide IsReal, KnownAlike;
  }

  /** Under a department yet to be created the planner knows that department alone. */
  lemma {:induction false} NewLookup(
      index: map<Key, Known>, departments: seq<OaDepartment>, i: nat, p: Planner, places: Places, parent: int, name: string)
    requires i <= |departments| && parent > 0 && parent in places && places[parent].None?
    requires KnownAlike(index, departments, i, p) && NewAreNoted(departments, i, places, p)
    ensures (Some(-parent), name) in p.known
       <==> exists j :: 0 <= j < i && departments[j].oaId == parent && departments[j].name == name
    ensures (Some(-parent), name) in p.known ==> p.known[(Some(-parent), name)].oaId == Some(parent)
  {
    hide KnownAlike;
    if (Some(-parent), name) in p.known {
      OnlyPlaceholders(index, departments, i, p, parent, name);
    }
    if j :| 0 <= j < i && departments[j].oaId == parent && departments[j].name == name {
      assert NotedUnderItself(p, departments[j]);
    }
  }

  /** What the planner finds for a kept department, and whether it is a conflict. */
  ghost predicate LooksUp(t: Table, departments: seq<OaDepartment>, i: nat, p: Planner)
    requires i < |departments|
  {
    var d, places := departments[i], PlacesOf(t, departments, i);
    var key, found := (Image(p.mapped, d.parent), d.name), FoundRow(t, places, d);
    if key in p.known then
      && (p.known[key].Differs(d) <==> Clashes(t, departments, i))
      && (!Clashes(t, departments, i) ==> found == Some(p.known[key].id) && p.known[key].id in t.rows)
    else found.None? && !Clashes(t, departments, i)
  }

  lemma {:induction false} LooksUpReal(t: Table, existing: seq<Entry>, departments: seq<OaDepartment>, i: nat, p: Planner)
    requires SoundTable(t) && Lists(existing, t) && i < |departments| && Alike(t, existing, departments, i, p)
    requires IsFirst(departments, i) && ParentKept(PlacesOf(t, departments, i), departments[i])
    requires ParentRow(PlacesOf(t, departments, i), departments[i]).Some?
    ensures LooksUp(t, departments, i, p)
  {
    var d, places := departments[i], PlacesOf(t, departments, i);
    ParentImage(t, places, p, d);
    RealLookup(t, existing, departments, i, p, ParentRow(places, d).value, d.name);
    assert !IsNamesake(departments, i, places);
    hide SoundTable, Lists, Index, RowNamed, KnownAlike, MappedTo, NewAreNoted, PlacesOf, IsFirst, Image, IsNamesake;
  }

  lemma {:induction false} NamesakeIff(departments: seq<OaDepartment>, i: nat, places: Places, parent: int)
    requires i < |departments| && departments[i].parent == Some(parent) && parent in places && places[parent].None?
    ensures IsNamesake(departments, i, places)
       <==> exists j :: 0 <= j < i && departments[j].oaId == parent && departments[j].name == departments[i].name
  {
    if j :| 0 <= j < i && departments[j].oaId == parent && departments[j].name == departments[i].name {
      assert NamesakeOf(departments[i], departments[j], places);
    }
  }

  lemma {:induction false} NewDiffers(p: Planner, key: Key, departments: seq<OaDepartment>, i: nat, parent: int)
    requires key in p.known && p.known[key].oaId == Some(parent) && parent > 0
    requires DistinctIds(departments) && i < |departments|
    requires exists j :: 0 <= j < i && departments[j].oaId == parent && departments[j].name == departments[i].name
    ensures p.known[key].Differs(departments[i])
  {
  }

  lemma {:induction false} LooksUpNew(t: Table, existing: seq<Entry>, departments: seq<OaDepartment>, i: nat, p: Planner)
    requires SoundTable(t) && DistinctIds(departments) && i < |departments| && Alike(t, existing, departments, i, p)
    requires IsFirst(departments, i) && ParentKept(PlacesOf(t, departments, i), departments[i])
    requires ParentRow(PlacesOf(t, departments, i), departments[i]).None?
    ensures LooksUp(t, departments, i, p)
  {
    hide SoundTable, DistinctIds, Index, KnownAlike, MappedTo, NewAreNoted, PlacesOf, IsFirst, Image, IsNamesake, Known.Differs;
    var d, places := departments[i], PlacesOf(t, departments, i);
    ParentImage(t, places, p, d);
    var parent: int := d.parent.value;
    NewLookup(Index(existing), departments, i, p, places, parent, d.name);
    NamesakeIff(departments, i, places, parent);
    if (Some(-parent), d.name) in p.known {
      NewDiffers(p, (Some(-parent), d.name), departments, i, parent);
    }
  }

  lemma {:induction false} LookupAgrees(t: Table, existing: seq<Entry>, departments: seq<OaDepartment>, i: nat, p: Planner)
    requires SoundTable(t) && Lists(existing, t) && DistinctIds(departments) && i < |departments|
    requires Alike(t, existing, departments, i, p)
    requires IsFirst(departments, i) && ParentKept(PlacesOf(t, departments, i), departments[i])
    ensures LooksUp(t, departments, i, p)
  {
    hide *;
    if ParentRow(PlacesOf(t, departments, i), departments[i]).Some? {
      LooksUpReal(t, existing, departments, i, p);
    } else {
      LooksUpNew(t, existing, departments, i, p);
    }
  }

  lemma {:induction false} ConflictHere(t: Table, existing: seq<Entry>, departments: seq<OaDepartment>, i: nat, p: Planner)
    requires SoundTable(t) && Lists(existing, t) && DistinctIds(departments) && i < |departments|
    requires Alike(t, existing, departments, i, p) && (departments[i].code in p.seen <==> !IsFirst(departments, i))
    ensures p.Decided(departments[i]).kind == Conflict <==> Clashes(t, departments, i)
  {
    var places := PlacesOf(t, departments, i);
    ParentImage(t, places, p, departments[i]);
    if IsFirst(departments, i) && ParentKept(places, departments[i]) {
      LookupAgrees(t, existing, departments, i, p);
    }
    hide SoundTable, Lists, DistinctIds, Alike, PlacesOf, IsFirst, Image, RowTaken, IsNamesake, FoundRow, ParentKept, Known.Differs;
  }

  lemma {:induction false} NotYetPlaced(t: Table, departments: seq<OaDepartment>, i: nat, k: nat)
    requires DistinctIds(departments) && i <= k < |departments|
    ensures departments[k].oaId !in PlacesOf(t, departments, i)
  {
    hide IsFirst, ParentKept, FoundRow;
    if i > 0 {
      NotYetPlaced(t, departments, i - 1, k);
    }
  }

  lemma {:induction false} NotedGrow(departments: seq<OaDepartment>, i: nat, places: Places, p: Planner, place: Option<int>, p': Planner)
    requires DistinctIds(departments) && i < |departments| && NewAreNoted(departments, i, places, p)
    requires departments[i].oaId !in places
    requires
      var d := departments[i];
      p'.known == if place.None? then p.known[(Some(-d.oaId), d.name) := Known(-d.oaId, Some(d.code), Some(d.oaId))] else p.known
    ensures NewAreNoted(departments, i + 1, places[departments[i].oaId := place], p')
  {
    var d, places' := departments[i], places[departments[i].oaId := place];
    forall j | 0 <= j < i + 1 && departments[j].oaId in places' && places'[departments[j].oaId].None?
      ensures NotedUnderItself(p', departments[j])
    {
      if j < i {
        assert departments[j].oaId != d.oaId && NotedUnderItself(p, departments[j]);
      }
    }
  }

  lemma {:induction false} MappedGrow(t: Table, places: Places, mapped: map<int, int>, k: int, place: Option<int>)
    requires MappedTo(t, places, mapped) && k > 0 && (place.Some? ==> place.value in t.rows)
    ensures MappedTo(t, places[k := place], mapped[k := place.GetOr(-k)])
  {
  }

  lemma {:induction false} NothingNoted(departments: seq<OaDepartment>, i: nat, places: Places, p: Planner, p': Planner)
    requires i < |departments| && NewAreNoted(departments, i, places, p) && p'.known == p.known
    requires departments[i].oaId !in places
    ensures NewAreNoted(departments, i + 1, places, p')
  {
    forall j | 0 <= j < i + 1 && departments[j].oaId in places && places[departments[j].oaId].None?
      ensures NotedUnderItself(p', departments[j])
    {
      assert j < i && NotedUnderItself(p, departments[j]);
    }
  }

  /** A kept department without a clash is mapped to its row, or noted as new. */
  lemma {:induction false} NotedAs(t: Table, departments: seq<OaDepartment>, i: nat, p: Planner)
    requires i < |departments| && LooksUp(t, departments, i, p) && !Clashes(t, departments, i)
    requires departments[i].code !in p.seen && Image(p.mapped, departments[i].parent).Some?
    ensures
      var d := departments[i];
      var found := FoundRow(t, PlacesOf(t, departments, i), d);
      && (found.Some? ==> found.value in t.rows)
      && p.Noted(d).mapped == p.mapped[d.oaId := found.GetOr(-d.oaId)]
      && p.Noted(d).known ==
           if found.None? then p.known[(Some(-d.oaId), d.name) := Known(-d.oaId, Some(d.code), Some(d.oaId))] else p.known
  {
    hide FoundRow, PlacesOf, Clashes, Image, Known.Differs;
  }

  lemma {:induction false} StillAlike(t: Table, existing: seq<Entry>, departments: seq<OaDepartment>, i: nat, p: Planner)
    requires SoundTable(t) && Lists(existing, t) && DistinctIds(departments) && i < |departments|
    requires Alike(t, existing, departments, i, p) && (departments[i].code in p.seen <==> !IsFirst(departments, i))
    requires !Clashes(t, departments, i)
    ensures Alike(t, existing, departments, i + 1, p.Noted(departments[i]))
  {
    var d, places, p' := departments[i], PlacesOf(t, departments, i), p.Noted(departments[i]);
    var index := Index(existing);
    assert d.oaId > 0;
    hide Index, KnownAlike, SoundTable, Lists, DistinctIds, Clashes, NewAreNoted, MappedTo, IsFirst, Image, FoundRow, LooksUp, ParentKept;
    ParentImage(t, places, p, d);
    NotYetPlaced(t, departments, i, i);
    KnownGrows(index, departments, i, p);
    if IsFirst(departments, i) && ParentKept(places, d) {
      LookupAgrees(t, existing, departments, i, p);
      NotedAs(t, departments, i, p);
      var found := FoundRow(t, places, d);
      hide Planner.Noted;
      NotedGrow(departments, i, places, p, found, p');
      MappedGrow(t, places, p.mapped, d.oaId, found);
      assert PlacesOf(t, departments, i + 1) == places[d.oaId := found];
    } else {
      assert p'.known == p.known && p'.mapped == p.mapped;
      NothingNoted(departments, i, places, p, p');
      assert PlacesOf(t, departments, i + 1) == places;
    }
  }

  // ---- The whole plan ---------------------------------------------------------------------------------

  lemma {:induction false} AlikeAtFirst(t: Table, existing: seq<Entry>, departments: seq<OaDepartment>)
    requires SoundTable(t) && Lists(existing, t)
    ensures Alike(t, existing, departments, 0, PlanAt(existing, departments, 0))
  {
    forall key | key in Index(existing) ensures IsReal(key) {
      IndexedRow(existing, t, key);
    }
    hide Index, Lists;
  }

  lemma {:induction false} AlikeUntilAClash(t: Table, existing: seq<Entry>, departments: seq<OaDepartment>, i: nat)
    requires SoundTable(t) && Lists(existing, t) && DistinctIds(departments) && i <= |departments|
    requires forall j :: 0 <= j < i ==> !Clashes(t, departments, j)
    ensures Alike(t, existing, departments, i, PlanAt(existing, departments, i))
  {
    hide Alike, SoundTable, Lists, DistinctIds, Clashes, Index, Planner.Noted, IsFirst;
    if i == 0 {
      AlikeAtFirst(t, existing, departments);
    } else {
      AlikeUntilAClash(t, existing, departments, i - 1);
      SeenUnlessFirst(existing, departments, i - 1);
      StillAlike(t, existing, departments, i - 1, PlanAt(existing, departments, i - 1));
    }
  }

  lemma {:induction false} SeenUnlessFirst(existing: seq<Entry>, departments: seq<OaDepartment>, i: nat)
    requires i < |departments|
    ensures departments[i].code in PlanAt(existing, departments, i).seen <==> !IsFirst(departments, i)
  {
    PlannerKeeps(existing, departments, i);
    hide PlanAt, KeptIds;
  }

  /** Up to the first clash, department i is planned as a conflict if and only if it clashes. */
  lemma {:induction false} ConflictAt(t: Table, existing: seq<Entry>, departments: seq<OaDepartment>, i: nat)
    requires SoundTable(t) && Lists(existing, t) && DistinctIds(departments) && i < |departments|
    requires forall j :: 0 <= j < i ==> !Clashes(t, departments, j)
    ensures Plan(existing, departments)[i].kind == Conflict <==> Clashes(t, departments, i)
  {
    hide Alike, SoundTable, Lists, DistinctIds, Clashes, Index, Planner.Decided, IsFirst, PlanAt;
    AlikeUntilAClash(t, existing, departments, i);
    SeenUnlessFirst(existing, departments, i);
    ConflictHere(t, existing, departments, i, PlanAt(existing, departments, i));
  }

  lemma {:induction false} NoneWithoutClash(t: Table, existing: seq<Entry>, departments: seq<OaDepartment>, i: nat)
    requires SoundTable(t) && Lists(existing, t) && DistinctIds(departments) && i <= |departments|
    requires forall j :: 0 <= j < |departments| ==> !Clashes(t, departments, j)
    ensures forall j :: 0 <= j < i ==> Plan(existing, departments)[j].kind != Conflict
  {
    hide SoundTable, Lists, DistinctIds, Clashes, Plan;
    if i > 0 {
      NoneWithoutClash(t, existing, departments, i - 1);
      ConflictAt(t, existing, departments, i - 1);
    }
  }

  lemma {:induction false} FirstClash(t: Table, departments: seq<OaDepartment>, i: nat) returns (first: nat)
    requires i < |departments| && Clashes(t, departments, i)
    ensures first < |departments| && Clashes(t, departments, first)
    ensures forall j :: 0 <= j < first ==> !Clashes(t, departments, j)
  {
    hide Clashes;
    if j :| 0 <= j < i && Clashes(t, departments, j) {
      first := FirstClash(t, departments, j);
    } else {
      first := i;
    }
  }

  /** On every platform, in whatever order its rows are listed, a plan has a conflict if and only if some department clashes. */
  lemma {:induction false} ConflictIffClash(t: Table, existing: seq<Entry>, departments: seq<OaDepartment>)
    requires SoundTable(t) && Lists(existing, t) && DistinctIds(departments)
    ensures ConflictFree(Plan(existing, departments)) <==> forall i :: 0 <= i < |departments| ==> !Clashes(t, departments, i)
  {
    hide SoundTable, Lists, DistinctIds, Clashes;
    if i :| 0 <= i < |departments| && Clashes(t, departments, i) {
      var first := FirstClash(t, departments, i);
      ConflictAt(t, existing, departments, first);
    } else {
      NoneWithoutClash(t, existing, departments, |departments|);
    }
  }
}
