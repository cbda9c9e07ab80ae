/**
 What applying a user plan does to the table: every accepted user has one row under a stable identity,
 and planning again on the result finds nothing left to do.
 */
module UserReplay {
  import opened Stripping
  import opened UserPlan
  import opened Wrappers

  // ---- Tables and inputs -------------------------------------------------------------------------

  /** Names and uids are unique over all rows, and the names of users that are not deleted are stripped. */
  ghost predicate SoundUsers(t: UserTable) {
    && t.NamesAreUnique() && t.UidsAreUnique()
    && (forall id :: id in t.rows ==> id < t.next)
    && (forall id :: id in t.rows && !t.rows[id].deleted ==> IsStripped(t.rows[id].username))
  }

  /** The users that are not deleted, as a query returns them, in any order. */
  ghost predicate Lists(existing: seq<UserEntry>, t: UserTable) {
    && (forall e :: e in existing ==> e.id in t.rows && t.rows[e.id] == e.row && !e.row.deleted)
    && (forall id :: id in t.rows && !t.rows[id].deleted ==> UserEntry(id, t.rows[id]) in existing)
  }

  datatype Input = Input(users: seq<OaUser>, links: seq<Link>, company: string)
  {
    /** The user is complete, the first with the account, and has one department. */
    predicate Accepted(i: nat)
      requires i < |users|
    {
      Rejected(links, users[i], SeenAt(users, i)).None?
    }

    function Account(i: nat): string
      requires i < |users|
    {
      users[i].Account()
    }

    /** The row an accepted user ends with. */
    function Wanted(i: nat): UserRow
      requires i < |users| && Accepted(i)
    {
      UserRow(Account(i), Some(DepartmentsOf(links, users[i].oaDepartmentId.value)[0]), BuildOaUid(company, Account(i)),
              Some(users[i].FullName()), false)
    }

    predicate IsWanted(i: nat, row: UserRow)
      requires i < |users|
    {
      Accepted(i) && row == Wanted(i)
    }

    function Actions(existing: seq<UserEntry>): seq<UserAction> {
      Plan(users, links, existing, company)
    }
  }

  ghost predicate ConflictFree(actions: seq<UserAction>) {
    forall i :: 0 <= i < |actions| ==> actions[i].kind != Conflict
  }

  lemma {:induction false} ByNameHolds(existing: seq<UserEntry>, name: string)
    ensures name in ByName(existing) ==> ByName(existing)[name] in existing && Strip(ByName(existing)[name].row.username) == name
    ensures name !in ByName(existing) ==> forall e :: e in existing ==> Strip(e.row.username) != name
  {
    if existing != [] {
      var init, last := existing[..|existing| - 1], existing[|existing| - 1];
      ByNameHolds(init, name);
      assert forall e :: e in existing <==> e in init || e == last;
    }
  }

  predicate IsOwner(e: UserEntry, uid: string, id: int) {
    e.row.uid == uid && e.id == id
  }

  lemma {:induction false} OwnersHold(existing: seq<UserEntry>, uid: string)
    requires uid != ""
    ensures uid in Owners(existing) ==> exists e :: e in existing && IsOwner(e, uid, Owners(existing)[uid])
    ensures uid !in Owners(existing) ==> forall e :: e in existing ==> e.row.uid != uid
  {
    if existing != [] {
      var init, last := existing[..|existing| - 1], existing[|existing| - 1];
      OwnersHold(init, uid);
      assert forall e :: e in existing <==> e in init || e == last;
      if uid in Owners(existing) {
        if last.row.uid == uid {
          assert last in existing && IsOwner(last, uid, Owners(existing)[uid]);
        } else {
          var e :| e in init && IsOwner(e, uid, Owners(init)[uid]);
          assert e in existing && IsOwner(e, uid, Owners(existing)[uid]);
        }
      }
    }
  }

  /** The index by name finds the user of that name, and nothing else. */
  lemma {:induction false} FoundByName(existing: seq<UserEntry>, t: UserTable, name: string)
    requires SoundUsers(t) && Lists(existing, t)
    ensures name in ByName(existing) ==>
              var e := ByName(existing)[name];
              t.IsUser(e.id, name) && e.row == t.rows[e.id]
    ensures name !in ByName(existing) ==> forall id :: !t.IsUser(id, name)
  {
    ByNameHolds(existing, name);
    if name in ByName(existing) {
      StripIsIdempotent(ByName(existing)[name].row.username);
    } else {
      forall id | id in t.rows && !t.rows[id].deleted ensures t.rows[id].username != name {
        StripIsIdempotent(t.rows[id].username);
        assert UserEntry(id, t.rows[id]) in existing;
      }
    }
  }

  lemma {:induction false} FoundOwner(existing: seq<UserEntry>, t: UserTable, uid: string, id: int)
    requires SoundUsers(t) && Lists(existing, t) && uid != ""
    requires id in t.rows && !t.rows[id].deleted && t.rows[id].uid == uid
    ensures uid in Owners(existing) && Owners(existing)[uid] == id
  {
    OwnersHold(existing, uid);
    assert UserEntry(id, t.rows[id]) in existing;
  }

  // ---- Stable identities -------------------------------------------------------------------------

  /** Within one company the identity determines the account. */
  lemma {:induction false} UidDeterminesAccount(company: string, a: string, b: string)
    requires BuildOaUid(company, a) == BuildOaUid(company, b)
    ensures Strip(a) == Strip(b)
  {
    var prefix := "oa:" + Strip(company) + ":";
    assert BuildOaUid(company, a) == prefix + Strip(a) && BuildOaUid(company, b) == prefix + Strip(b);
    assert (prefix + Strip(a))[|prefix|..] == Strip(a) && (prefix + Strip(b))[|prefix|..] == Strip(b);
  }

  lemma {:induction false} AccountIsStripped(input: Input, i: nat)
    requires i < |input.users|
    ensures Strip(input.Account(i)) == input.Account(i)
  {
    StripIsIdempotent(input.users[i].rawAccount);
  }

  lemma {:induction false} SeenGrows(users: seq<OaUser>, i: nat, j: nat)
    requires i < j <= |users| && users[i].Account() != "" && users[i].FullName() != ""
    ensures users[i].Account() in SeenAt(users, j)
    decreases j
  {
    if i < j - 1 {
      SeenGrows(users, i, j - 1);
    }
  }

  /** No two accepted users share an account, nor a stable identity. */
  lemma {:induction false} AcceptedDiffer(input: Input, i: nat, j: nat)
    requires i < j < |input.users| && input.Accepted(i) && input.Accepted(j)
    ensures input.Account(i) != input.Account(j)
    ensures input.Wanted(i).uid != input.Wanted(j).uid
  {
    SeenGrows(input.users, i, j);
    if input.Wanted(i).uid == input.Wanted(j).uid {
      UidDeterminesAccount(input.company, input.Account(i), input.Account(j));
      AccountIsStripped(input, i);
      AccountIsStripped(input, j);
    }
  }

  /** A plan acts on an account once at most. */
  lemma {:induction false} ActsOncePerAccount(input: Input, existing: seq<UserEntry>, i: nat, j: nat)
    requires i < j < |input.users|
    requires input.Actions(existing)[i].kind != Skip && input.Actions(existing)[j].kind != Skip
    ensures input.Actions(existing)[i].account != input.Actions(existing)[j].account
  {
    hide Plan, OaUser.Account, Rejected;
    ActsOnAccepted(input, existing, i);
    ActsOnAccepted(input, existing, j);
    AcceptedDiffer(input, i, j);
  }

  lemma {:induction false} ActsOnAccepted(input: Input, existing: seq<UserEntry>, i: nat)
    requires i < |input.users|
    ensures input.Actions(existing)[i].account == input.Account(i)
    ensures input.Actions(existing)[i].kind != Skip ==> input.Accepted(i)
  {
    PlannedAt(input.users, input.links, existing, input.company, i);
    hide Plan, DepartmentsOf, ByName, Owners, SeenAt, BuildOaUid;
  }

  /** Link n is the one link with the identity. */
  predicate IsOnlyLink(links: seq<Link>, oaId: int, n: int) {
    && 0 <= n < |links| && links[n].oaId == Some(oaId)
    && forall m :: 0 <= m < |links| && m != n ==> links[m].oaId != Some(oaId)
  }

  lemma {:induction false} NoLink(links: seq<Link>, oaId: int)
    ensures DepartmentsOf(links, oaId) == [] <==> forall m :: 0 <= m < |links| ==> links[m].oaId != Some(oaId)
  {
    if links != [] {
      NoLink(links[..|links| - 1], oaId);
      assert forall m :: 0 <= m < |links| - 1 ==> links[..|links| - 1][m] == links[m];
    }
  }

  lemma {:induction false} OnlyLinkIs(links: seq<Link>, oaId: int, n: int)
    requires IsOnlyLink(links, oaId, n)
    ensures DepartmentsOf(links, oaId) == [links[n].departmentId]
  {
    var init := links[..|links| - 1];
    if n == |links| - 1 {
      NoLink(init, oaId);
    } else {
      OnlyLinkIs(init, oaId, n);
    }
  }

  lemma {:induction false} SomeLink(links: seq<Link>, oaId: int) returns (n: int)
    requires |DepartmentsOf(links, oaId)| == 1
    ensures IsOnlyLink(links, oaId, n)
  {
    var init := links[..|links| - 1];
    if links[|links| - 1].oaId == Some(oaId) {
      NoLink(init, oaId);
      n := |links| - 1;
    } else {
      n := SomeLink(init, oaId);
    }
  }

  lemma {:induction false} OneLink(links: seq<Link>, oaId: int)
    ensures |DepartmentsOf(links, oaId)| == 1 <==> exists n :: IsOnlyLink(links, oaId, n)
    ensures forall n :: IsOnlyLink(links, oaId, n) ==> DepartmentsOf(links, oaId) == [links[n].departmentId]
  {
    forall n | IsOnlyLink(links, oaId, n) ensures DepartmentsOf(links, oaId) == [links[n].departmentId] {
      OnlyLinkIs(links, oaId, n);
    }
    if |DepartmentsOf(links, oaId)| == 1 {
      var n := SomeLink(links, oaId);
    }
    hide DepartmentsOf;
  }

  predicate IsNamed(u: OaUser) {
    u.Account() != "" && u.FullName() != ""
  }

  predicate Occupies(u: OaUser, account: string) {
    IsNamed(u) && u.Account() == account
  }

  predicate OccupiedBefore(users: seq<OaUser>, i: nat, account: string)
    requires i <= |users|
  {
    exists j :: 0 <= j < i && Occupies(users[j], account)
  }

  lemma {:induction false} SeenIff(users: seq<OaUser>, i: nat, account: string)
    requires i <= |users|
    ensures account in SeenAt(users, i) <==> OccupiedBefore(users, i, account)
  {
    hide *;
    if i == 0 {
      NothingSeen(users);
      NothingOccupied(users, account);
    } else {
      SeenIff(users, i - 1, account);
      SeenOneMore(users, i - 1, account);
      OccupiedOneMore(users, i - 1, account);
    }
  }

  lemma {:induction false} NothingOccupied(users: seq<OaUser>, account: string)
    ensures !OccupiedBefore(users, 0, account)
  {
  }

  lemma {:induction false} OccupiedOneMore(users: seq<OaUser>, i: nat, account: string)
    requires i < |users|
    ensures OccupiedBefore(users, i + 1, account) <==> OccupiedBefore(users, i, account) || Occupies(users[i], account)
  {
    hide Occupies;
  }

  lemma {:induction false} SeenOneMore(users: seq<OaUser>, i: nat, account: string)
    requires i < |users|
    ensures account in SeenAt(users, i + 1) <==> account in SeenAt(users, i) || Occupies(users[i], account)
  {
    hide OaUser.Account, OaUser.FullName;
  }

  /**
   A user is accepted exactly if account and name are filled in, no earlier user with a name has the
   account, and the user's department is one department of the platform; and that is the user's.
   */
  lemma {:induction false} AcceptedIff(input: Input, i: nat)
    requires i < |input.users|
    ensures
      var u := input.users[i];
      input.Accepted(i) <==>
        && IsNamed(u)
        && !OccupiedBefore(input.users, i, u.Account())
        && u.oaDepartmentId.Some? && exists n :: IsOnlyLink(input.links, u.oaDepartmentId.value, n)
    ensures input.Accepted(i) ==>
              forall n :: IsOnlyLink(input.links, input.users[i].oaDepartmentId.value, n) ==>
                input.Wanted(i).departmentId == Some(input.links[n].departmentId)
  {
    var u := input.users[i];
    SeenIff(input.users, i, u.Account());
    if u.oaDepartmentId.Some? {
      OneLink(input.links, u.oaDepartmentId.value);
    }
    hide OaUser.Account, OaUser.FullName, SeenAt, DepartmentsOf, BuildOaUid, IsOnlyLink, OccupiedBefore;
  }

  /** A conflict is planned exactly for an accepted user whose identity another user holds. */
  lemma {:induction false} ConflictIffTaken(input: Input, existing: seq<UserEntry>, t: UserTable, i: nat)
    requires SoundUsers(t) && Lists(existing, t) && i < |input.users|
    ensures input.Actions(existing)[i].kind == Conflict <==>
              && input.Accepted(i)
              && exists id :: id in t.rows && !t.rows[id].deleted && t.rows[id].uid == input.Wanted(i).uid
                              && t.rows[id].username != input.Account(i)
  {
    if input.Accepted(i) {
      var uid, name := input.Wanted(i).uid, input.Account(i);
      AcceptedAction(input, existing, i);
      FoundByName(existing, t, name);
      OwnersHold(existing, uid);
      if uid in Owners(existing) {
        var e :| e in existing && IsOwner(e, uid, Owners(existing)[uid]);
        assert t.rows[e.id] == e.row && !e.row.deleted;
        assert t.rows[e.id].username == name ==> t.IsUser(e.id, name);
      }
      forall id | id in t.rows && !t.rows[id].deleted && t.rows[id].uid == uid
        ensures uid in Owners(existing) && Owners(existing)[uid] == id
      {
        FoundOwner(existing, t, uid, id);
      }
    } else {
      RejectedAction(input, existing, i);
    }
    hide Input.Accepted, Input.Actions, Input.Wanted, Input.Account, ByName, Owners;
  }

  // ---- Reasons ----------------------------------------------------------------------------------------

  predicate HasLink(links: seq<Link>, oaId: int) {
    exists n :: 0 <= n < |links| && links[n].oaId == Some(oaId)
  }

  /** Why a user is not accepted: the first of these that applies. */
  ghost predicate IsReason(input: Input, i: nat, reason: Reason)
    requires i < |input.users|
  {
    var u := input.users[i];
    var free := IsNamed(u) && !OccupiedBefore(input.users, i, u.Account());
    match reason
    case EmptyAccount => u.Account() == ""
    case EmptyName => u.Account() != "" && u.FullName() == ""
    case DuplicateAccount => IsNamed(u) && OccupiedBefore(input.users, i, u.Account())
    case NoDepartment => free && u.oaDepartmentId.None?
    case UnknownDepartment => free && u.oaDepartmentId.Some? && !HasLink(input.links, u.oaDepartmentId.value)
    case AmbiguousDepartment =>
      && free && u.oaDepartmentId.Some? && HasLink(input.links, u.oaDepartmentId.value)
      && !exists n :: IsOnlyLink(input.links, u.oaDepartmentId.value, n)
    case TakenIdentity => false
    case UpToDate => false
  }

  /** A user who is not accepted is skipped, and the plan says why and nothing more. */
  lemma {:induction false} SkippedForAReason(input: Input, existing: seq<UserEntry>, i: nat, reason: Reason)
    requires i < |input.users| && reason != TakenIdentity && reason != UpToDate
    ensures IsReason(input, i, reason) <==>
              !input.Accepted(i)
              && input.Actions(existing)[i] == UserAction(Skip, input.Account(i), None, None, None, Some(reason))
    ensures input.Accepted(i) ==> input.Actions(existing)[i].reason != Some(reason)
  {
    var u := input.users[i];
    SeenIff(input.users, i, u.Account());
    PlannedAt(input.users, input.links, existing, input.company, i);
    if u.oaDepartmentId.Some? {
      NoLink(input.links, u.oaDepartmentId.value);
      OneLink(input.links, u.oaDepartmentId.value);
    }
    hide Plan, OaUser.Account, OaUser.FullName, SeenAt, DepartmentsOf, BuildOaUid, IsOnlyLink, OccupiedBefore, ByName, Owners;
  }

  /** An accepted user is left alone exactly if the user's row is as wanted, and is told the department then. */
  lemma {:induction false} SkippedIffUpToDate(input: Input, existing: seq<UserEntry>, t: UserTable, i: nat)
    requires SoundUsers(t) && Lists(existing, t) && i < |input.users| && input.Accepted(i)
    requires input.Actions(existing)[i].kind != Conflict
    ensures
      var a := input.Actions(existing)[i];
      && (a.kind == Skip <==> HasRow(input, i, t))
      && (a.kind == Skip ==>
            a == UserAction(Skip, input.Account(i), input.Wanted(i).departmentId, None, None, Some(UpToDate)))
      && (a.kind != Skip ==> a.reason == None)
  {
    var row, a := input.Wanted(i), input.Actions(existing)[i];
    AcceptedAction(input, existing, i);
    FoundByName(existing, t, row.username);
    if HasRow(input, i, t) {
      var id :| id in t.rows && input.IsWanted(i, t.rows[id]);
      assert t.IsUser(id, row.username);
      assert ByName(existing)[row.username].row == row;
    }
    hide Input.Accepted, Input.Actions, Lists, ByName, Owners, HasRow, BuildOaUid, DepartmentsOf, OaUser.FullName;
  }

  /** A conflict says that the identity is taken and plans nothing. */
  lemma {:induction false} ConflictPlansNothing(input: Input, existing: seq<UserEntry>, i: nat)
    requires i < |input.users| && input.Actions(existing)[i].kind == Conflict
    ensures input.Actions(existing)[i] == UserAction(Conflict, input.Account(i), None, None, None, Some(TakenIdentity))
  {
    PlannedAt(input.users, input.links, existing, input.company, i);
    hide Plan, OaUser.Account, OaUser.FullName, SeenAt, DepartmentsOf, BuildOaUid, ByName, Owners;
  }

  // ---- The planner and the executor in step ------------------------------------------------------

  predicate IsFor(input: Input, i: nat, t: UserTable, id: int, row: UserRow)
    requires i < |input.users|
  {
    && input.IsWanted(i, row)
    && (if id in t.rows then !t.rows[id].deleted && t.rows[id].username == input.Account(i) else id >= t.next)
  }

  /** A row is as it was, or it is the row of an accepted user: the user's own, or a new one. */
  ghost predicate Explained(input: Input, i: nat, t: UserTable, id: int, row: UserRow)
    requires i <= |input.users|
  {
    (id in t.rows && row == t.rows[id]) || exists j :: 0 <= j < i && IsFor(input, j, t, id, row)
  }

  predicate HasRow(input: Input, i: nat, x: UserTable)
    requires i < |input.users|
  {
    exists id :: id in x.rows && input.IsWanted(i, x.rows[id])
  }

  ghost predicate InStep(input: Input, i: nat, t: UserTable, x: UserTable)
    requires i <= |input.users|
  {
    && x.NamesAreUnique() && x.UidsAreUnique() && (forall id :: id in x.rows ==> id < x.next) && t.next <= x.next
    && (forall id :: id in t.rows ==> id in x.rows)
    && (forall id :: id in x.rows ==> Explained(input, i, t, id, x.rows[id]))
    && (forall j :: 0 <= j < i && input.Accepted(j) ==> HasRow(input, j, x))
  }

  /** A deleted row keeps its name and its uid, and the planner does not see it. */
  predicate Blocked(t: UserTable, a: UserAction) {
    exists id :: id in t.rows && t.rows[id].deleted && Blocks(t.rows[id], a)
  }

  predicate Blocks(row: UserRow, a: UserAction) {
    (a.kind == Create && row.username == a.account) || (a.uid.Some? && row.uid == a.uid.value)
  }

  /** Row id of the table before the plan is still as it was when its own user comes. */
  lemma {:induction false} StillUntouched(input: Input, i: nat, t: UserTable, x: UserTable, id: int)
    requires i < |input.users| && input.Accepted(i) && InStep(input, i, t, x) && id in t.rows
    requires t.rows[id].deleted || t.rows[id].username == input.Account(i)
    ensures x.rows[id] == t.rows[id]
  {
    assert Explained(input, i, t, id, x.rows[id]);
    if j :| 0 <= j < i && IsFor(input, j, t, id, x.rows[id]) {
      AcceptedDiffer(input, j, i);
    }
  }

  /** A uid that the planner found free can only be held by a deleted row. */
  lemma {:induction false} UidHolders(
      input: Input, i: nat, existing: seq<UserEntry>, t: UserTable, x: UserTable, target: int, other: int)
    requires SoundUsers(t) && Lists(existing, t) && i < |input.users| && input.Accepted(i) && InStep(input, i, t, x)
    requires input.Wanted(i).uid in Owners(existing) ==> Owners(existing)[input.Wanted(i).uid] == target
    requires other in x.rows && other != target && x.rows[other].uid == input.Wanted(i).uid
    ensures other in t.rows && t.rows[other].deleted && t.rows[other].uid == input.Wanted(i).uid
  {
    assert Explained(input, i, t, other, x.rows[other]);
    if j :| 0 <= j < i && IsFor(input, j, t, other, x.rows[other]) {
      AcceptedDiffer(input, j, i);
    } else if !t.rows[other].deleted {
      FoundOwner(existing, t, input.Wanted(i).uid, other);
    }
  }

  lemma {:induction false} NameHolders(
      input: Input, i: nat, existing: seq<UserEntry>, t: UserTable, x: UserTable, other: int)
    requires SoundUsers(t) && Lists(existing, t) && i < |input.users| && input.Accepted(i) && InStep(input, i, t, x)
    requires input.Account(i) !in ByName(existing)
    requires other in x.rows && x.rows[other].username == input.Account(i)
    ensures other in t.rows && t.rows[other].deleted && t.rows[other].username == input.Account(i)
  {
    assert Explained(input, i, t, other, x.rows[other]);
    FoundByName(existing, t, input.Account(i));
    assert !t.IsUser(other, input.Account(i));
    if j :| 0 <= j < i && IsFor(input, j, t, other, x.rows[other]) {
      AcceptedDiffer(input, j, i);
    }
  }

  /** The next user's row has been put in place, or was there already. */
  function Placing(x: UserTable, id: int, row: UserRow): UserTable {
    UserTable(x.rows[id := row], if id == x.next then id + 1 else x.next)
  }

  predicate IsPlaceFor(input: Input, i: nat, t: UserTable, x: UserTable, id: int)
    requires i < |input.users|
  {
    if id == x.next then true
    else id in t.rows && id in x.rows && !t.rows[id].deleted && t.rows[id].username == input.Account(i)
  }

  lemma {:induction false} PlacedInStep(input: Input, i: nat, t: UserTable, x: UserTable, id: int)
    requires SoundUsers(t) && i < |input.users| && input.Accepted(i) && InStep(input, i, t, x)
    requires IsPlaceFor(input, i, t, x, id)
    requires
      var x' := Placing(x, id, input.Wanted(i));
      x'.NamesAreUnique() && x'.UidsAreUnique()
    ensures InStep(input, i + 1, t, Placing(x, id, input.Wanted(i)))
  {
    hide Input.Accepted, Input.Wanted, Input.Account, UserTable.NamesAreUnique, UserTable.UidsAreUnique;
    var row := input.Wanted(i);
    var x' := Placing(x, id, row);
    forall r | r in x'.rows ensures Explained(input, i + 1, t, r, x'.rows[r]) {
      if r == id {
        assert IsFor(input, i, t, id, row);
      } else {
        ExplainedLonger(input, i, t, r, x.rows[r]);
      }
    }
    forall j | 0 <= j < i + 1 && input.Accepted(j) ensures HasRow(input, j, x') {
      if j == i {
        assert id in x'.rows && input.IsWanted(i, x'.rows[id]);
      } else {
        RowStays(input, i, t, x, id, j);
      }
    }
  }

  lemma {:induction false} ExplainedLonger(input: Input, i: nat, t: UserTable, id: int, row: UserRow)
    requires i < |input.users| && Explained(input, i, t, id, row)
    ensures Explained(input, i + 1, t, id, row)
  {
    if j :| 0 <= j < i && IsFor(input, j, t, id, row) {
      assert 0 <= j < i + 1 && IsFor(input, j, t, id, row);
    }
    hide IsFor;
  }

  lemma {:induction false} RowStays(input: Input, i: nat, t: UserTable, x: UserTable, id: int, j: nat)
    requires SoundUsers(t) && j < i < |input.users| && input.Accepted(i) && input.Accepted(j) && InStep(input, i, t, x)
    requires IsPlaceFor(input, i, t, x, id)
    ensures HasRow(input, j, Placing(x, id, input.Wanted(i)))
  {
    assert HasRow(input, j, x);
    var own :| own in x.rows && input.IsWanted(j, x.rows[own]);
    assert x.rows[own].username == input.Account(j);
    AcceptedDiffer(input, j, i);
    if own == id {
      StillUntouched(input, i, t, x, id);
    }
    var x' := Placing(x, id, input.Wanted(i));
    assert own in x'.rows && input.IsWanted(j, x'.rows[own]);
  }

  /** The step is refused because of a deleted user, or taken; then planner and executor stay in step. */
  ghost predicate StepAgrees(input: Input, i: nat, t: UserTable, x: UserTable, a: UserAction)
    requires i < |input.users|
  {
    if Blocked(t, a) then Executed(x, a) == Failure(Duplicate)
    else Executed(x, a).Success? && InStep(input, i + 1, t, Executed(x, a).value)
  }

  lemma {:induction false} RejectedStep(input: Input, i: nat, t: UserTable, x: UserTable)
    requires i < |input.users| && !input.Accepted(i) && InStep(input, i, t, x)
    ensures InStep(input, i + 1, t, x)
  {
    hide Input.Accepted;
    forall r | r in x.rows ensures Explained(input, i + 1, t, r, x.rows[r]) {
      ExplainedLonger(input, i, t, r, x.rows[r]);
    }
    hide Explained, HasRow, UserTable.NamesAreUnique, UserTable.UidsAreUnique;
  }

  /** Which identity holders stand in the way can be told from the table as it was before the plan. */
  lemma {:induction false} UidTakenIff(
      input: Input, i: nat, existing: seq<UserEntry>, t: UserTable, x: UserTable, target: int)
    requires SoundUsers(t) && Lists(existing, t) && i < |input.users| && input.Accepted(i) && InStep(input, i, t, x)
    requires input.Wanted(i).uid in Owners(existing) ==> Owners(existing)[input.Wanted(i).uid] == target
    requires target in t.rows ==> !t.rows[target].deleted
    ensures x.UidTaken(target, input.Wanted(i).uid)
        <==> exists id :: id in t.rows && t.rows[id].deleted && t.rows[id].uid == input.Wanted(i).uid
  {
    var uid := input.Wanted(i).uid;
    if x.UidTaken(target, uid) {
      var other :| other in x.rows && other != target && x.rows[other].uid == uid;
      UidHolders(input, i, existing, t, x, target, other);
    }
    if id :| id in t.rows && t.rows[id].deleted && t.rows[id].uid == uid {
      StillUntouched(input, i, t, x, id);
      assert id in x.rows && id != target && x.rows[id].uid == uid;
    }
    hide InStep, SoundUsers, Lists, Input.Accepted, Input.Wanted;
  }

  lemma {:induction false} NameTakenIff(input: Input, i: nat, existing: seq<UserEntry>, t: UserTable, x: UserTable)
    requires SoundUsers(t) && Lists(existing, t) && i < |input.users| && input.Accepted(i) && InStep(input, i, t, x)
    requires input.Account(i) !in ByName(existing)
    ensures x.NameTaken(x.next, input.Account(i))
        <==> exists id :: id in t.rows && t.rows[id].deleted && t.rows[id].username == input.Account(i)
  {
    if x.NameTaken(x.next, input.Account(i)) {
      var other :| other in x.rows && other != x.next && x.rows[other].username == input.Account(i);
      NameHolders(input, i, existing, t, x, other);
    }
    if id :| id in t.rows && t.rows[id].deleted && t.rows[id].username == input.Account(i) {
      StillUntouched(input, i, t, x, id);
      assert id in x.rows && id != x.next && x.rows[id].username == input.Account(i);
    }
    hide InStep, SoundUsers, Lists, Input.Accepted, Input.Account;
  }

  /** What the planner decides about an accepted user, from what it finds under the account. */
  lemma {:induction false} AcceptedAction(input: Input, existing: seq<UserEntry>, i: nat)
    requires i < |input.users| && input.Accepted(i)
    ensures
      input.Actions(existing)[i]
      == Compared(UserAction(Skip, input.Account(i), None, None, None, None), input.Wanted(i).departmentId.value,
                  input.Wanted(i).uid, input.Wanted(i).displayName.value, ByName(existing), Owners(existing))
  {
    PlannedAt(input.users, input.links, existing, input.company, i);
    hide Plan, DepartmentsOf, ByName, Owners, SeenAt, BuildOaUid, Compared, Rejected, OaUser.Account, OaUser.FullName;
  }

  lemma {:induction false} CreateStep(input: Input, i: nat, existing: seq<UserEntry>, t: UserTable, x: UserTable)
    requires SoundUsers(t) && Lists(existing, t) && i < |input.users| && input.Accepted(i) && InStep(input, i, t, x)
    requires input.Account(i) !in ByName(existing) && input.Actions(existing)[i].kind != Conflict
    ensures StepAgrees(input, i, t, x, input.Actions(existing)[i])
  {
    var a, row := input.Actions(existing)[i], input.Wanted(i);
    AcceptedAction(input, existing, i);
    assert a == UserAction(Create, row.username, row.departmentId, Some(row.uid), row.displayName, None);
    assert row.uid !in Owners(existing);
    assert row.username == input.Account(i) && !row.deleted;
    assert x.NamesAreUnique() && x.UidsAreUnique() && (forall id :: id in x.rows ==> id < x.next);
    assert x.next !in t.rows;
    hide Input.Accepted, Input.Wanted, Input.Actions, Input.Account, InStep, SoundUsers, Lists, Blocked, Placing,
         UserTable.NameTaken, UserTable.UidTaken, UserTable.NamesAreUnique, UserTable.UidsAreUnique, ByName, Owners,
         Executed;
    NameTakenIff(input, i, existing, t, x);
    UidTakenIff(input, i, existing, t, x, x.next);
    BlockedIff(t, a, row.uid);
    CreateExecuted(x, a, row);
    if !Blocked(t, a) {
      ExecutedKeepsUnique(x, a);
      PlacedInStep(input, i, t, x, x.next);
    }
  }

  lemma {:induction false} CreateExecuted(x: UserTable, a: UserAction, row: UserRow)
    requires a == UserAction(Create, row.username, row.departmentId, Some(row.uid), row.displayName, None) && !row.deleted
    ensures
      Executed(x, a) == if x.NameTaken(x.next, row.username) || x.UidTaken(x.next, row.uid) then Failure(Duplicate)
                        else Success(Placing(x, x.next, row))
  {
    hide UserTable.NameTaken, UserTable.UidTaken;
  }

  lemma {:induction false} BlockedIff(t: UserTable, a: UserAction, uid: string)
    ensures a.kind == Create && a.uid == Some(uid) ==>
              (Blocked(t, a) <==>
                || (exists id :: id in t.rows && t.rows[id].deleted && t.rows[id].username == a.account)
                || (exists id :: id in t.rows && t.rows[id].deleted && t.rows[id].uid == uid))
    ensures a.kind == UpdateIdentity && a.uid == Some(uid) ==>
              (Blocked(t, a) <==> exists id :: id in t.rows && t.rows[id].deleted && t.rows[id].uid == uid)
    ensures a.kind != Create && a.uid == None ==> !Blocked(t, a)
  {
  }

  lemma {:induction false} KnownStep(input: Input, i: nat, existing: seq<UserEntry>, t: UserTable, x: UserTable)
    requires SoundUsers(t) && Lists(existing, t) && i < |input.users| && input.Accepted(i) && InStep(input, i, t, x)
    requires input.Account(i) in ByName(existing) && input.Actions(existing)[i].kind != Conflict
    ensures StepAgrees(input, i, t, x, input.Actions(existing)[i])
  {
    var a, row := input.Actions(existing)[i], input.Wanted(i);
    var id := ByName(existing)[input.Account(i)].id;
    AcceptedAction(input, existing, i);
    FoundByName(existing, t, input.Account(i));
    StillUntouched(input, i, t, x, id);
    ComparedRow(a, row, t.rows[id], ByName(existing), Owners(existing), ByName(existing)[input.Account(i)]);
    assert a.kind == Skip || a.kind == UpdateIdentity;
    assert row.uid in Owners(existing) ==> Owners(existing)[row.uid] == id;
    UidTakenIff(input, i, existing, t, x, id);
    BlockedIff(t, a, row.uid);
    assert x.NamesAreUnique() && id in x.rows && id < t.next && t.next <= x.next;
    assert x.IsUser(id, a.account);
    FindsTheUser(x, id, a.account);
    if !Blocked(t, a) {
      KnownExecuted(x, a, id, row);
      if a.kind == Skip {
        assert x.UidsAreUnique();
      } else {
        ExecutedKeepsUnique(x, a);
      }
      PlacedInStep(input, i, t, x, id);
    }
    hide Input.Accepted, Input.Wanted, Input.Actions, Input.Account, InStep, SoundUsers, Lists, Blocked, Placing,
         UserTable.UidTaken, UserTable.Find, UserTable.IsUser, ByName, Owners;
  }

  /** An update sets what differs from the wanted row, and so the row becomes the wanted one. */
  lemma {:induction false} ComparedRow(
      a: UserAction, row: UserRow, before: UserRow, byName: map<string, UserEntry>, owners: map<string, int>,
      current: UserEntry)
    requires row.departmentId.Some? && row.displayName.Some? && !row.deleted && !before.deleted
    requires row.username in byName && byName[row.username] == current && current.row == before
    requires before.username == row.username
    requires a == Compared(UserAction(Skip, row.username, None, None, None, None), row.departmentId.value, row.uid,
                           row.displayName.value, byName, owners)
    requires a.kind != Conflict
    ensures a.account == row.username && (a.uid == None || a.uid == Some(row.uid))
    ensures row.uid in owners ==> owners[row.uid] == current.id
    ensures
      || (a.kind == Skip && a.uid == None && before == row)
      || (a.kind == UpdateIdentity && Updated(before, a) == row)
  {
  }

  lemma {:induction false} KnownExecuted(x: UserTable, a: UserAction, id: int, row: UserRow)
    requires x.IsUser(id, a.account) && x.Find(a.account) == Some(id) && id < x.next
    requires
      || (a.kind == Skip && x.rows[id] == row)
      || (a.kind == UpdateIdentity && Updated(x.rows[id], a) == row)
    requires a.uid.Some? ==> !x.UidTaken(id, a.uid.value)
    ensures Executed(x, a) == Success(Placing(x, id, row))
  {
    if a.kind == Skip {
      assert x.rows[id := row] == x.rows;
    }
    hide UserTable.UidTaken, UserTable.Find;
  }

  lemma {:induction false} OneStep(input: Input, i: nat, existing: seq<UserEntry>, t: UserTable, x: UserTable)
    requires SoundUsers(t) && Lists(existing, t) && i < |input.users| && InStep(input, i, t, x)
    requires input.Actions(existing)[i].kind != Conflict
    ensures StepAgrees(input, i, t, x, input.Actions(existing)[i])
  {
    if !input.Accepted(i) {
      RejectedStep(input, i, t, x);
      RejectedAction(input, existing, i);
      BlockedIff(t, input.Actions(existing)[i], "");
    } else if input.Account(i) in ByName(existing) {
      KnownStep(input, i, existing, t, x);
    } else {
      CreateStep(input, i, existing, t, x);
    }
    hide Input.Accepted, Input.Actions, Input.Account, InStep, SoundUsers, Lists, Blocked, ByName;
  }

  lemma {:induction false} RejectedAction(input: Input, existing: seq<UserEntry>, i: nat)
    requires i < |input.users| && !input.Accepted(i)
    ensures input.Actions(existing)[i].kind == Skip && input.Actions(existing)[i].uid == None
  {
    PlannedAt(input.users, input.links, existing, input.company, i);
    hide Plan, DepartmentsOf, ByName, Owners, SeenAt, Rejected, OaUser.Account;
  }

  // ---- The whole plan ----------------------------------------------------------------------------

  ghost predicate Unblocked(t: UserTable, actions: seq<UserAction>, i: nat)
    requires i <= |actions|
  {
    forall j :: 0 <= j < i ==> !Blocked(t, actions[j])
  }

  /** The executor has been refused by the database, or it is in step with the planner. */
  ghost predicate RunAgrees(input: Input, existing: seq<UserEntry>, t: UserTable, i: nat)
    requires i <= |input.users|
  {
    var run := AppliedAt(t, input.Actions(existing), i);
    if Unblocked(t, input.Actions(existing), i) then run.Success? && InStep(input, i, t, run.value)
    else run == Failure(Duplicate)
  }

  lemma {:induction false} AgreesAtFirst(input: Input, existing: seq<UserEntry>, t: UserTable)
    requires SoundUsers(t)
    ensures RunAgrees(input, existing, t, 0)
  {
    assert InStep(input, 0, t, t);
  }

  lemma {:induction false} OneMoreAgrees(input: Input, existing: seq<UserEntry>, t: UserTable, i: nat)
    requires SoundUsers(t) && Lists(existing, t) && i < |input.users|
    requires ConflictFree(input.Actions(existing)) && RunAgrees(input, existing, t, i)
    ensures RunAgrees(input, existing, t, i + 1)
  {
    hide InStep, SoundUsers, Lists, Blocked, Executed, Input.Actions;
    var actions := input.Actions(existing);
    ActionsCount(input, existing);
    assert Unblocked(t, actions, i + 1) <==> Unblocked(t, actions, i) && !Blocked(t, actions[i]);
    if Unblocked(t, actions, i) {
      OneStep(input, i, existing, t, AppliedAt(t, actions, i).value);
    }
    hide Unblocked, ConflictFree;
  }

  lemma {:induction false} ActionsCount(input: Input, existing: seq<UserEntry>)
    ensures |input.Actions(existing)| == |input.users|
  {
  }

  lemma {:induction false} AlwaysInStep(input: Input, existing: seq<UserEntry>, t: UserTable, i: nat)
    requires SoundUsers(t) && Lists(existing, t) && i <= |input.users| && ConflictFree(input.Actions(existing))
    ensures RunAgrees(input, existing, t, i)
  {
    hide *;
    if i == 0 {
      AgreesAtFirst(input, existing, t);
    } else {
      AlwaysInStep(input, existing, t, i - 1);
      OneMoreAgrees(input, existing, t, i - 1);
    }
  }

  /**
   A plan without conflicts, applied: every user to update is found, and the database refuses the plan
   exactly when a deleted user still holds a name or an identity that some action is about to write.
   */
  lemma {:induction false} PlanAppliesIff(input: Input, existing: seq<UserEntry>, t: UserTable)
    requires SoundUsers(t) && Lists(existing, t) && ConflictFree(input.Actions(existing))
    ensures
      var actions := input.Actions(existing);
      && (Applied(t, actions).Success? <==> forall a :: a in actions ==> !Blocked(t, a))
      && (Applied(t, actions).Failure? ==> Applied(t, actions).error == Duplicate)
  {
    AlwaysInStep(input, existing, t, |input.users|);
    ActionsCount(input, existing);
    hide InStep, Blocked, Input.Actions;
  }

  /**
   After a plan has been applied every accepted user has a row with the account, the stable identity,
   the department and the name; all other rows are as they were; names and identities are unique.
   */
  lemma {:induction false} EveryUserIsPlaced(input: Input, existing: seq<UserEntry>, t: UserTable)
    requires SoundUsers(t) && Lists(existing, t) && ConflictFree(input.Actions(existing))
    requires Applied(t, input.Actions(existing)).Success?
    ensures
      var t' := Applied(t, input.Actions(existing)).value;
      && SoundUsers(t')
      && (forall i :: 0 <= i < |input.users| && input.Accepted(i) ==> HasRow(input, i, t'))
      && (forall id :: id in t'.rows ==> Explained(input, |input.users|, t, id, t'.rows[id]))
      && (forall id :: id in t.rows ==> id in t'.rows)
  {
    AlwaysInStep(input, existing, t, |input.users|);
    ActionsCount(input, existing);
    var t' := Applied(t, input.Actions(existing)).value;
    assert InStep(input, |input.users|, t, t');
    forall id | id in t'.rows && !t'.rows[id].deleted ensures IsStripped(t'.rows[id].username) {
      assert Explained(input, |input.users|, t, id, t'.rows[id]);
      if j :| 0 <= j < |input.users| && IsFor(input, j, t, id, t'.rows[id]) {
        AccountIsStripped(input, j);
        StripIsIdempotent(input.Account(j));
      }
    }
    hide Explained, HasRow, IsFor, Input.Accepted, Input.Actions, AppliedAt, Strip;
  }

  // ---- Planning again ------------------------------------------------------------------------------

  lemma {:induction false} ReplannedSkips(input: Input, existing: seq<UserEntry>, t: UserTable, i: nat)
    requires SoundUsers(t) && Lists(existing, t) && i < |input.users|
    requires input.Accepted(i) ==> HasRow(input, i, t)
    ensures input.Actions(existing)[i].kind == Skip
  {
    if input.Accepted(i) {
      var id :| id in t.rows && input.IsWanted(i, t.rows[id]);
      var row := input.Wanted(i);
      FoundByName(existing, t, row.username);
      assert t.IsUser(id, row.username);
      var e := ByName(existing)[row.username];
      assert e.id == id;
      AcceptedAction(input, existing, i);
      FoundOwner(existing, t, row.uid, id);
    } else {
      RejectedAction(input, existing, i);
    }
    hide Input.Accepted, Input.Actions, SoundUsers, Lists, ByName, Owners, HasRow, BuildOaUid;
  }

  /** Planning again on the table that a plan has produced, whatever the order of its rows, only skips. */
  lemma {:induction false} ReplanningOnlySkips(
      input: Input, existing: seq<UserEntry>, existing': seq<UserEntry>, t: UserTable)
    requires SoundUsers(t) && Lists(existing, t) && ConflictFree(input.Actions(existing))
    requires Applied(t, input.Actions(existing)).Success?
    requires Lists(existing', Applied(t, input.Actions(existing)).value)
    ensures forall a :: a in input.Actions(existing') ==> a.kind == Skip
  {
    var t' := Applied(t, input.Actions(existing)).value;
    EveryUserIsPlaced(input, existing, t);
    ActionsCount(input, existing');
    forall i | 0 <= i < |input.users| ensures input.Actions(existing')[i].kind == Skip {
      ReplannedSkips(input, existing', t', i);
    }
    hide Input.Accepted, Input.Actions, SoundUsers, Lists, Explained, HasRow;
  }
}
