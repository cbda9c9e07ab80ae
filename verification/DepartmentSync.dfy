/** What applying a department plan does to the table, and what the next plan finds there. */
module DepartmentSync {
  import opened DepartmentPlan
  import opened DepartmentTree
  import opened Stripping
  import opened Wrappers

  // ---- Tables and inputs -------------------------------------------------------------------------

  /** Rows have positive ids and parents that exist, the root has no parent, and siblings differ in name. */
  ghost predicate SoundTable(t: Table) {
    && ROOT in t.rows && t.rows[ROOT].parent == None
    && (forall id :: id in t.rows ==> 0 < id < t.next)
    && (forall id :: id in t.rows && t.rows[id].parent.Some? ==> t.rows[id].parent.value in t.rows)
    && (forall id, other :: id in t.rows && other in t.rows && KeyOf(t.rows[id]) == KeyOf(t.rows[other]) ==> id == other)
  }

  /** The rows as a query returns them, in any order. */
  ghost predicate Lists(existing: seq<Entry>, t: Table) {
    && (forall e :: e in existing ==> e.id in t.rows && t.rows[e.id] == e.row)
    && (forall id :: id in t.rows ==> Entry(id, t.rows[id]) in existing)
  }

  ghost predicate SoundInput(departments: seq<OaDepartment>) {
    && (forall i :: 0 <= i < |departments| ==> departments[i].oaId > 0 && IsComplete(departments[i]))
    && (forall i, j :: 0 <= i < |departments| && 0 <= j < |departments| && departments[i].oaId == departments[j].oaId
          ==> i == j)
    && (forall i, j :: 0 <= i < |departments| && 0 <= j < |departments| && AreSiblings(departments[i], departments[j])
          ==> i == j)
  }

  predicate AreSiblings(d: OaDepartment, e: OaDepartment) {
    d.parent == e.parent && d.name == e.name
  }

  ghost predicate ConflictFree(actions: seq<DepartmentAction>) {
    forall i :: 0 <= i < |actions| ==> actions[i].kind != Conflict
  }

  lemma {:induction false} IndexHolds(existing: seq<Entry>, key: Key)
    ensures key in Index(existing) ==> exists e :: e in existing && KeyOf(e.row) == key && Index(existing)[key] == KnownOf(e.id, e.row)
    ensures key !in Index(existing) ==> forall e :: e in existing ==> KeyOf(e.row) != key
  {
    if existing != [] {
      var init, last := existing[..|existing| - 1], existing[|existing| - 1];
      IndexHolds(init, key);
      assert forall e :: e in existing <==> e in init || e == last;
    }
  }

  /** Where siblings differ in name, the order of the rows does not matter: the index finds the one row of a key. */
  lemma {:induction false} IndexFinds(existing: seq<Entry>, t: Table, id: int)
    requires Lists(existing, t) && SoundTable(t) && id in t.rows
    ensures KeyOf(t.rows[id]) in Index(existing)
    ensures Index(existing)[KeyOf(t.rows[id])] == KnownOf(id, t.rows[id])
  {
    IndexHolds(existing, KeyOf(t.rows[id]));
    assert Entry(id, t.rows[id]) in existing;
  }

  lemma {:induction false} IndexedRow(existing: seq<Entry>, t: Table, key: Key)
    requires Lists(existing, t) && SoundTable(t) && key in Index(existing)
    ensures Index(existing)[key].id in t.rows && KeyOf(t.rows[Index(existing)[key].id]) == key
    ensures Index(existing)[key] == KnownOf(Index(existing)[key].id, t.rows[Index(existing)[key].id])
  {
    IndexHolds(existing, key);
  }

  // ---- The planner and the executor in step ------------------------------------------------------

  /** Department d has its row: the name, code and identity, under the row of its parent. */
  predicate Placed(x: Session, d: OaDepartment) {
    && d.oaId in x.mapped && x.mapped[d.oaId] in x.table.rows
    && var row := x.table.rows[x.mapped[d.oaId]];
       && row.parent.Some? && row.parent == Image(x.mapped, d.parent) && Strip(row.name) == d.name
       && row.code == Some(d.code) && row.oaId == Some(d.oaId)
  }

  predicate InImage(x: Session, id: int) {
    exists k :: k in x.mapped && x.mapped[k] == id
  }

  predicate Among(departments: seq<OaDepartment>, i: nat, oaId: int)
    requires i <= |departments|
  {
    exists j :: 0 <= j < i && departments[j].oaId == oaId
  }

  ghost predicate AllPlaced(departments: seq<OaDepartment>, i: nat, x: Session)
    requires i <= |departments|
  {
    && (forall j :: 0 <= j < i && departments[j].oaId in x.mapped ==> Placed(x, departments[j]))
    && AllAmong(departments, i, x.mapped)
  }

  predicate AllAmong(departments: seq<OaDepartment>, i: nat, mapped: map<int, int>)
    requires i <= |departments|
  {
    forall k :: k in mapped ==> Among(departments, i, k)
  }

  /** Rows keep their names and parents; the only ones touched or added belong to departments. */
  ghost predicate Preserved(t: Table, x: Session) {
    && t.next <= x.table.next
    && (forall id :: id in t.rows ==> id in x.table.rows && KeepsPlace(t.rows[id], x.table.rows[id]))
    && (forall id :: id in t.rows && !InImage(x, id) ==> x.table.rows[id] == t.rows[id])
    && (forall id :: id in x.table.rows && id !in t.rows ==> InImage(x, id) && id >= t.next)
  }

  predicate KeepsPlace(before: Row, after: Row) {
    after.name == before.name && after.parent == before.parent
  }

  /** The planner's image of a department is its row, or the placeholder of a row that was created. */
  predicate SameImage(t: Table, k: int, planned: int, actual: int) {
    (planned == actual && actual in t.rows) || (planned == -k && actual >= t.next)
  }

  ghost predicate MappedAlike(t: Table, p: Planner, x: Session) {
    p.mapped.Keys == x.mapped.Keys && forall k :: k in p.mapped ==> SameImage(t, k, p.mapped[k], x.mapped[k])
  }

  predicate IsReal(key: Key) {
    key.0.None? || key.0.value > 0
  }

  /** What line 108 of the planner adds to the index: a created node under its own placeholder. */
  ghost predicate IsPlaceholder(p: Planner, departments: seq<OaDepartment>, i: nat, key: Key)
    requires i <= |departments| && key in p.known
  {
    exists j :: 0 <= j < i && PlaceholderOf(p, departments[j], key)
  }

  predicate PlaceholderOf(p: Planner, d: OaDepartment, key: Key)
    requires key in p.known
  {
    key == (Some(-d.oaId), d.name) && p.known[key] == Known(-d.oaId, Some(d.code), Some(d.oaId))
  }

  ghost predicate KnownAlike(index: map<Key, Known>, departments: seq<OaDepartment>, i: nat, p: Planner)
    requires i <= |departments|
  {
    && (forall key :: key in index ==> key in p.known)
    && (forall key :: key in p.known && IsReal(key) ==> key in index && p.known[key] == index[key])
    && (forall key :: key in p.known && !IsReal(key) ==> IsPlaceholder(p, departments, i, key))
  }

  ghost predicate Agreed(t: Table, departments: seq<OaDepartment>, i: nat, p: Planner, x: Session)
    requires i <= |departments|
  {
    && (forall j :: 0 <= j < i ==> departments[j].code in p.seen)
    && (forall j :: 0 <= j < i && departments[j].oaId in x.mapped && x.mapped[departments[j].oaId] in t.rows ==>
          Harmless(t, x.mapped[departments[j].oaId], departments[j]))
  }

  predicate Harmless(t: Table, id: int, d: OaDepartment)
    requires id in t.rows
  {
    !KnownOf(id, t.rows[id]).Differs(d)
  }

  ghost predicate InStep(t: Table, existing: seq<Entry>, departments: seq<OaDepartment>, i: nat, p: Planner, x: Session)
    requires i <= |departments|
  {
    && MappedAlike(t, p, x)
    && AllPlaced(departments, i, x)
    && Preserved(t, x)
    && SoundTable(x.table)
    && KnownAlike(Index(existing), departments, i, p)
    && Agreed(t, departments, i, p, x)
  }

  /** Another row of the table already carries the code or the identity that the action is about to write. */
  predicate ClaimedElsewhere(t: Table, a: DepartmentAction) {
    exists other :: other in t.rows && Some(other) != a.departmentId && Carries(t.rows[other], a.code, a.oaId)
  }

  predicate Refused(t: Table, a: DepartmentAction) {
    (a.kind == Create || a.kind == UpdateIdentity) && ClaimedElsewhere(t, a)
  }

  /** The departments before i keep their rows when d, a new one, gets the row id. */
  lemma {:induction false} PlacedStays(x: Session, d: OaDepartment, id: int, table': Table, other: OaDepartment)
    requires Placed(x, other) && d.oaId !in x.mapped && id != x.mapped[other.oaId]
    requires forall r :: r in x.table.rows && r != id ==> r in table'.rows && table'.rows[r] == x.table.rows[r]
    ensures Placed(Session(table', x.mapped[d.oaId := id]), other)
  {
  }

  /** Two departments with a common parent row and a common name are one. */
  lemma {:induction false} SiblingsDiffer(departments: seq<OaDepartment>, i: nat, j: nat, x: Session)
    requires SoundInput(departments) && j < i < |departments|
    requires AllPlaced(departments, i, x) && SoundTable(x.table)
    requires Image(x.mapped, departments[i].parent).Some?
    requires Image(x.mapped, departments[j].parent) == Image(x.mapped, departments[i].parent)
    ensures departments[j].name != departments[i].name
  {
    var p, q := departments[i].parent, departments[j].parent;
    if p.Some? {
      assert Among(departments, i, p.value);
    }
    if q.Some? {
      assert Among(departments, i, q.value);
    }
    assert p == q;
    assert !AreSiblings(departments[i], departments[j]);
  }

  lemma {:induction false} NotYetMapped(departments: seq<OaDepartment>, i: nat, x: Session)
    requires SoundInput(departments) && i < |departments| && AllPlaced(departments, i, x)
    ensures departments[i].oaId !in x.mapped
  {
  }

  lemma {:induction false} ImagesAgree(t: Table, p: Planner, x: Session, parent: Option<int>)
    requires MappedAlike(t, p, x) && SoundTable(t)
    ensures Image(p.mapped, parent).Some? <==> Image(x.mapped, parent).Some?
    ensures Image(p.mapped, parent).Some? ==>
              var planned, actual := Image(p.mapped, parent).value, Image(x.mapped, parent).value;
              (planned == actual && actual in t.rows) || (parent.Some? && planned == -parent.value && actual >= t.next)
  {
  }

  // ---- A department that has a row ---------------------------------------------------------------

  /** In a plan without conflicts a department is never matched with a row that was yet to be created. */
  lemma {:induction false} MatchIsReal(
      t: Table, existing: seq<Entry>, departments: seq<OaDepartment>, i: nat, p: Planner, x: Session, at: Option<int>)
    requires SoundTable(t) && Lists(existing, t) && SoundInput(departments) && i < |departments|
    requires InStep(t, existing, departments, i, p, x)
    requires departments[i].code !in p.seen && at == Image(p.mapped, departments[i].parent) && at.Some?
    requires (at, departments[i].name) in p.known && !p.known[(at, departments[i].name)].Differs(departments[i])
    ensures
      var known := p.known[(at, departments[i].name)];
      && known.id in t.rows && known == KnownOf(known.id, t.rows[known.id])
      && KeyOf(t.rows[known.id]) == (at, departments[i].name)
      && at == Image(x.mapped, departments[i].parent)
  {
    var d := departments[i];
    var key := (at, d.name);
    assert !IsReal(key) ==> IsPlaceholder(p, departments, i, key);
    IndexedRow(existing, t, key);
    ImagesAgree(t, p, x, d.parent);
    if d.parent.Some? && at.value == -d.parent.value {
      assert Among(departments, i, d.parent.value);
    }
  }

  lemma {:induction false} MatchIsFree(t: Table, departments: seq<OaDepartment>, i: nat, x: Session, id: int)
    requires SoundInput(departments) && i < |departments|
    requires AllPlaced(departments, i, x) && SoundTable(x.table) && Preserved(t, x) && id in t.rows
    requires Image(x.mapped, departments[i].parent).Some?
    requires KeyOf(t.rows[id]) == (Image(x.mapped, departments[i].parent), departments[i].name)
    ensures !InImage(x, id)
  {
    if InImage(x, id) {
      var k :| k in x.mapped && x.mapped[k] == id;
      assert Among(departments, i, k);
      var j :| 0 <= j < i && departments[j].oaId == k;
      assert Placed(x, departments[j]);
      SiblingsDiffer(departments, i, j, x);
      assert false;
    }
  }

  /** Row id is given to department i. */
  function Matched(x: Session, d: OaDepartment, id: int): Session
    requires id in x.table.rows
  {
    Session(x.table.Identified(id, d.code, d.oaId), x.mapped[d.oaId := id])
  }

  lemma {:induction false} NewlyPlaced(departments: seq<OaDepartment>, i: nat, x: Session, id: int, table': Table)
    requires SoundInput(departments) && i < |departments| && AllPlaced(departments, i, x) && !InImage(x, id)
    requires forall r :: r in x.table.rows && r != id ==> r in table'.rows && table'.rows[r] == x.table.rows[r]
    requires Placed(Session(table', x.mapped[departments[i].oaId := id]), departments[i])
    ensures AllPlaced(departments, i + 1, Session(table', x.mapped[departments[i].oaId := id]))
  {
    var d := departments[i];
    var x' := Session(table', x.mapped[d.oaId := id]);
    NotYetMapped(departments, i, x);
    forall j | 0 <= j < i && departments[j].oaId in x'.mapped ensures Placed(x', departments[j]) {
      assert departments[j].oaId != d.oaId;
      assert Placed(x, departments[j]);
      PlacedStays(x, d, id, table', departments[j]);
    }
    AmongLonger(departments, i, x.mapped, id);
    hide Placed, Among, AllAmong, SoundInput, InImage;
  }

  lemma {:induction false} IdentifiedIsSound(t: Table, id: int, code: string, oaId: int)
    requires SoundTable(t) && id in t.rows
    ensures SoundTable(t.Identified(id, code, oaId))
  {
    var t' := t.Identified(id, code, oaId);
    assert forall r :: r in t.rows <==> r in t'.rows;
    assert forall r :: r in t.rows ==> KeyOf(t'.rows[r]) == KeyOf(t.rows[r]) && t'.rows[r].parent == t.rows[r].parent;
    hide KeyOf;
  }

  lemma {:induction false} MatchKeepsRows(t: Table, departments: seq<OaDepartment>, i: nat, x: Session, id: int)
    requires SoundInput(departments) && i < |departments|
    requires AllPlaced(departments, i, x) && SoundTable(x.table) && Preserved(t, x) && id in t.rows
    requires Image(x.mapped, departments[i].parent).Some?
    requires KeyOf(t.rows[id]) == (Image(x.mapped, departments[i].parent), departments[i].name)
    ensures
      var x' := Matched(x, departments[i], id);
      AllPlaced(departments, i + 1, x') && SoundTable(x'.table) && Preserved(t, x')
  {
    hide Placed, InImage, KeyOf, SoundInput, AllPlaced, SoundTable, Image, Preserved, Matched, Strip, Table.Identified;
    var d := departments[i];
    NotYetMapped(departments, i, x);
    MatchIsFree(t, departments, i, x, id);
    MatchTakes(t, x, d, id);
    var x' := Matched(x, d, id);
    NewlyPlaced(departments, i, x, id, x'.table);
    MatchPreserves(t, x, d, id);
  }

  /** The row is the department's, and the only one to change. */
  lemma {:induction false} MatchTakes(t: Table, x: Session, d: OaDepartment, id: int)
    requires d.oaId !in x.mapped && SoundTable(x.table) && Preserved(t, x) && id in t.rows
    requires Image(x.mapped, d.parent).Some? && KeyOf(t.rows[id]) == (Image(x.mapped, d.parent), d.name)
    ensures id in x.table.rows
    ensures
      var x' := Matched(x, d, id);
      && Placed(x', d) && SoundTable(x'.table) && x' == Session(x'.table, x.mapped[d.oaId := id])
      && forall r :: r in x.table.rows && r != id ==> r in x'.table.rows && x'.table.rows[r] == x.table.rows[r]
  {
    assert KeepsPlace(t.rows[id], x.table.rows[id]);
    ImageStays(x.mapped, d, id);
    IdentifiedIsSound(x.table, id, d.code, d.oaId);
    hide SoundTable, Image, Strip, InImage;
  }

  lemma {:induction false} MatchPreserves(t: Table, x: Session, d: OaDepartment, id: int)
    requires d.oaId !in x.mapped && Preserved(t, x) && id in t.rows && id in x.table.rows
    ensures Preserved(t, Matched(x, d, id))
  {
    ImageGrows(x, d.oaId, id, Matched(x, d, id));
    assert KeepsPlace(t.rows[id], x.table.rows[id]);
    hide InImage;
  }

  lemma {:induction false} ImageStays(mapped: map<int, int>, d: OaDepartment, id: int)
    requires d.oaId !in mapped && Image(mapped, d.parent).Some?
    ensures Image(mapped[d.oaId := id], d.parent) == Image(mapped, d.parent)
  {
  }

  lemma {:induction false} AmongLonger(departments: seq<OaDepartment>, i: nat, mapped: map<int, int>, id: int)
    requires i < |departments| && AllAmong(departments, i, mapped)
    ensures AllAmong(departments, i + 1, mapped[departments[i].oaId := id])
  {
    var mapped' := mapped[departments[i].oaId := id];
    forall k | k in mapped' ensures Among(departments, i + 1, k) {
      assert k == departments[i].oaId || Among(departments, i, k);
    }
  }

  lemma {:induction false} ImageGrows(x: Session, oaId: int, id: int, x': Session)
    requires oaId !in x.mapped && x'.mapped == x.mapped[oaId := id]
    ensures forall r :: InImage(x', r) <==> r == id || InImage(x, r)
  {
    assert oaId in x'.mapped && x'.mapped[oaId] == id;
    forall r | InImage(x, r) ensures InImage(x', r) {
      var k :| k in x.mapped && x.mapped[k] == r;
      assert k in x'.mapped && x'.mapped[k] == r;
    }
  }

  // ---- A department that is created --------------------------------------------------------------

  function Created(x: Session, d: OaDepartment, parent: int): Session {
    Session(x.table.WithChild(parent, d.name).Identified(x.table.next, d.code, d.oaId),
            x.mapped[d.oaId := x.table.next])
  }

  predicate KeyIsFree(t: Table, key: Key) {
    forall other :: other in t.rows ==> KeyOf(t.rows[other]) != key
  }

  /** If the planner knows no row of that name under that parent, the table has none either. */
  lemma {:induction false} NewNameIsFree(
      t: Table, existing: seq<Entry>, departments: seq<OaDepartment>, i: nat, p: Planner, x: Session)
    requires SoundTable(t) && Lists(existing, t) && SoundInput(departments) && i < |departments|
    requires InStep(t, existing, departments, i, p, x)
    requires Image(p.mapped, departments[i].parent).Some?
    requires (Image(p.mapped, departments[i].parent), departments[i].name) !in p.known
    ensures Image(x.mapped, departments[i].parent).Some?
    ensures KeyIsFree(x.table, (Image(x.mapped, departments[i].parent), departments[i].name))
  {
    var d := departments[i];
    ImagesAgree(t, p, x, d.parent);
    var at := Image(x.mapped, d.parent);
    forall other | other in x.table.rows ensures KeyOf(x.table.rows[other]) != (at, d.name) {
      if other in t.rows {
        OldNameIsFree(t, existing, departments, i, p, x, other);
      } else {
        assert InImage(x, other);
        var k :| k in x.mapped && x.mapped[k] == other;
        assert Among(departments, i, k);
        var j :| 0 <= j < i && departments[j].oaId == k;
        assert Placed(x, departments[j]);
        if Image(x.mapped, departments[j].parent) == at {
          SiblingsDiffer(departments, i, j, x);
        }
      }
    }
  }

  lemma {:induction false} OldNameIsFree(
      t: Table, existing: seq<Entry>, departments: seq<OaDepartment>, i: nat, p: Planner, x: Session, other: int)
    requires SoundTable(t) && Lists(existing, t) && i < |departments| && other in t.rows
    requires MappedAlike(t, p, x) && Preserved(t, x) && KnownAlike(Index(existing), departments, i, p)
    requires Image(p.mapped, departments[i].parent).Some?
    requires (Image(p.mapped, departments[i].parent), departments[i].name) !in p.known
    ensures KeyOf(x.table.rows[other]) != (Image(x.mapped, departments[i].parent), departments[i].name)
  {
    ImagesAgree(t, p, x, departments[i].parent);
    IndexFinds(existing, t, other);
    assert KeepsPlace(t.rows[other], x.table.rows[other]);
  }

  lemma {:induction false} CreatedIsSound(x: Session, d: OaDepartment, parent: int)
    requires SoundTable(x.table) && parent in x.table.rows && Strip(d.name) == d.name
    requires KeyIsFree(x.table, (Some(parent), d.name))
    ensures SoundTable(Created(x, d, parent).table)
  {
    var t, t', id := x.table, Created(x, d, parent).table, x.table.next;
    assert KeyOf(t'.rows[id]) == (Some(parent), d.name);
    assert forall r :: r in t'.rows <==> r in t.rows || r == id;
    assert forall r :: r in t.rows ==> t'.rows[r] == t.rows[r];
    hide KeyOf;
  }

  lemma {:induction false} CreateKeepsRows(t: Table, departments: seq<OaDepartment>, i: nat, x: Session, parent: int)
    requires SoundInput(departments) && i < |departments|
    requires AllPlaced(departments, i, x) && SoundTable(x.table) && Preserved(t, x)
    requires Image(x.mapped, departments[i].parent) == Some(parent) && parent in x.table.rows
    requires KeyIsFree(x.table, (Some(parent), departments[i].name))
    ensures
      var x' := Created(x, departments[i], parent);
      AllPlaced(departments, i + 1, x') && SoundTable(x'.table) && Preserved(t, x')
  {
    var d := departments[i];
    var x', id := Created(x, d, parent), x.table.next;
    assert IsComplete(d);
    NotYetMapped(departments, i, x);
    if InImage(x, id) {
      ImageIsRow(departments, i, x, id);
    }
    CreatedIsPlaced(x, d, parent);
    CreatedKeepsOthers(x, d, parent);
    NewlyPlaced(departments, i, x, id, x'.table);
    CreatedIsSound(x, d, parent);
    CreatedPreserves(t, x, d, parent);
    hide Placed, InImage, KeyOf, SoundInput, AllPlaced, Image, KeyIsFree, Preserved, SoundTable, Created;
  }

  lemma {:induction false} CreatedIsPlaced(x: Session, d: OaDepartment, parent: int)
    requires d.oaId !in x.mapped && Image(x.mapped, d.parent) == Some(parent) && Strip(d.name) == d.name
    ensures Placed(Created(x, d, parent), d)
  {
    ImageStays(x.mapped, d, x.table.next);
  }

  lemma {:induction false} CreatedKeepsOthers(x: Session, d: OaDepartment, parent: int)
    requires SoundTable(x.table)
    ensures forall r :: r in x.table.rows && r != x.table.next ==>
              r in Created(x, d, parent).table.rows && Created(x, d, parent).table.rows[r] == x.table.rows[r]
    ensures x.table.next !in x.table.rows
  {
  }

  lemma {:induction false} CreatedPreserves(t: Table, x: Session, d: OaDepartment, parent: int)
    requires d.oaId !in x.mapped && SoundTable(x.table) && Preserved(t, x)
    ensures Preserved(t, Created(x, d, parent))
  {
    var x', id := Created(x, d, parent), x.table.next;
    ImageGrows(x, d.oaId, id, x');
    assert x'.table.next == id + 1;
    assert id !in x.table.rows && id >= t.next;
    forall r | r in t.rows ensures r in x'.table.rows && x'.table.rows[r] == x.table.rows[r] {
      assert r in x.table.rows;
    }
    forall r | r in x'.table.rows && r !in t.rows ensures InImage(x', r) && r >= t.next {
      assert r == id || r in x.table.rows;
    }
    hide InImage, SoundTable, Created;
  }

  lemma {:induction false} ImageIsRow(departments: seq<OaDepartment>, i: nat, x: Session, id: int)
    requires i <= |departments| && AllPlaced(departments, i, x) && InImage(x, id)
    ensures id in x.table.rows
  {
    var k :| k in x.mapped && x.mapped[k] == id;
    assert Among(departments, i, k);
  }
}
