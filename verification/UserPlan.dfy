/**
 Synchronising users: a planner that matches the people of the office-automation system with the
 users of a platform by account, and an executor that replays the plan on the table of users.
 */
module UserPlan {
  import opened Stripping
  import opened Wrappers

  datatype OaUser = OaUser(rawAccount: string, rawName: string, oaDepartmentId: Option<int>)
  {
    function Account(): string {
      Strip(rawAccount)
    }

    function FullName(): string {
      Strip(rawName)
    }
  }

  datatype UserRow = UserRow(
    username: string, departmentId: Option<int>, uid: string, displayName: Option<string>, deleted: bool)

  datatype UserEntry = UserEntry(id: int, row: UserRow)

  /** A department of the platform and the identity it carries, if any. */
  datatype Link = Link(departmentId: int, oaId: Option<int>)

  datatype Kind = Create | UpdateIdentity | Skip | Conflict

  datatype Reason =
    | EmptyAccount | EmptyName | DuplicateAccount | NoDepartment | UnknownDepartment | AmbiguousDepartment
    | TakenIdentity | UpToDate

  datatype UserAction = UserAction(
    kind: Kind, account: string, departmentId: Option<int>, uid: Option<string>, displayName: Option<string>,
    reason: Option<Reason>)

  function BuildOaUid(company: string, account: string): string {
    "oa:" + Strip(company) + ":" + Strip(account)
  }

  // ---- The planner -------------------------------------------------------------------------------

  /** The platform's departments with this identity, in their order. */
  function DepartmentsOf(links: seq<Link>, oaId: int): seq<int> {
    if links == [] then []
    else
      var last := links[|links| - 1];
      DepartmentsOf(links[..|links| - 1], oaId) + if last.oaId == Some(oaId) then [last.departmentId] else []
  }

  function ByName(existing: seq<UserEntry>): map<string, UserEntry> {
    if existing == [] then map[]
    else
      var last := existing[|existing| - 1];
      ByName(existing[..|existing| - 1])[Strip(last.row.username) := last]
  }

  function Owners(existing: seq<UserEntry>): map<string, int> {
    if existing == [] then map[]
    else
      var last, before := existing[|existing| - 1], Owners(existing[..|existing| - 1]);
      if last.row.uid != "" then before[last.row.uid := last.id] else before
  }

  function SeenAt(users: seq<OaUser>, i: nat): set<string>
    requires i <= |users|
  {
    if i == 0 then {}
    else
      var u := users[i - 1];
      SeenAt(users, i - 1) + if u.Account() != "" && u.FullName() != "" then {u.Account()} else {}
  }

  /** Why a user is left out before the platform's users are looked at. */
  function Rejected(links: seq<Link>, u: OaUser, seen: set<string>): Option<Reason> {
    if u.Account() == "" then Some(EmptyAccount)
    else if u.FullName() == "" then Some(EmptyName)
    else if u.Account() in seen then Some(DuplicateAccount)
    else if u.oaDepartmentId.None? then Some(NoDepartment)
    else
      var matched := DepartmentsOf(links, u.oaDepartmentId.value);
      if |matched| == 1 then None else Some(if matched == [] then UnknownDepartment else AmbiguousDepartment)
  }

  /** What becomes of an accepted user: `action` carries the account, and skips. */
  function Compared(
      action: UserAction, department: int, uid: string, fullName: string, byName: map<string, UserEntry>,
      owners: map<string, int>): UserAction
  {
    var current := if action.account in byName then Some(byName[action.account]) else None;
    if uid in owners && (current.None? || owners[uid] != current.value.id) then
      action.(kind := Conflict, reason := Some(TakenIdentity))
    else if current.None? then
      action.(kind := Create, departmentId := Some(department), uid := Some(uid), displayName := Some(fullName))
    else
      var row := current.value.row;
      if row.departmentId == Some(department) && row.uid == uid && row.displayName == Some(fullName) then
        action.(departmentId := Some(department), reason := Some(UpToDate))
      else
        action.(kind := UpdateIdentity,
                departmentId := if row.departmentId != Some(department) then Some(department) else None,
                uid := if row.uid != uid then Some(uid) else None,
                displayName := if row.displayName != Some(fullName) then Some(fullName) else None)
  }

  function Decided(
      links: seq<Link>, byName: map<string, UserEntry>, owners: map<string, int>, company: string,
      u: OaUser, seen: set<string>): UserAction
  {
    var action := UserAction(Skip, u.Account(), None, None, None, None);
    var rejected := Rejected(links, u, seen);
    if rejected.Some? then action.(reason := rejected)
    else
      var department := DepartmentsOf(links, u.oaDepartmentId.value)[0];
      Compared(action, department, BuildOaUid(company, u.Account()), u.FullName(), byName, owners)
  }

  /** One action for each user, in the same order. */
  function Plan(users: seq<OaUser>, links: seq<Link>, existing: seq<UserEntry>, company: string): (plan: seq<UserAction>)
    ensures |plan| == |users|
  {
    seq(|users|, i requires 0 <= i < |users| =>
      Decided(links, ByName(existing), Owners(existing), company, users[i], SeenAt(users, i)))
  }

  ghost predicate Groups(departmentIds: map<int, seq<int>>, links: seq<Link>) {
    forall oaId :: DepartmentsOf(links, oaId) == if oaId in departmentIds then departmentIds[oaId] else []
  }

  method GroupDepartments(links: seq<Link>) returns (departmentIds: map<int, seq<int>>)
    ensures Groups(departmentIds, links)
  {
    departmentIds := map[];
    for i := 0 to |links|
      invariant Groups(departmentIds, links[..i])
    {
      assert links[..i + 1][..i] == links[..i];
      var link := links[i];
      if link.oaId.Some? {
        var before := if link.oaId.value in departmentIds then departmentIds[link.oaId.value] else [];
        departmentIds := departmentIds[link.oaId.value := before + [link.departmentId]];
      }
    }
    assert links[..|links|] == links;
  }

  method IndexUsers(existing: seq<UserEntry>) returns (byName: map<string, UserEntry>, owners: map<string, int>)
    ensures byName == ByName(existing) && owners == Owners(existing)
  {
    byName, owners := map[], map[];
    for i := 0 to |existing|
      invariant byName == ByName(existing[..i]) && owners == Owners(existing[..i])
    {
      assert existing[..i + 1][..i] == existing[..i];
      byName := byName[Strip(existing[i].row.username) := existing[i]];
      if existing[i].row.uid != "" {
        owners := owners[existing[i].row.uid := existing[i].id];
      }
    }
    assert existing[..|existing|] == existing;
  }

  method BuildMigrationActions(users: seq<OaUser>, links: seq<Link>, existing: seq<UserEntry>, company: string)
    returns (actions: seq<UserAction>)
    ensures actions == Plan(users, links, existing, company)
  {
    hide *;
    var departmentIds := GroupDepartments(links);
    var byName, owners := IndexUsers(existing);
    var seen: set<string> := {};
    ghost var plan := Plan(users, links, existing, company);
    NothingSeen(users);
    actions := [];
    for i := 0 to |users|
      invariant |plan| == |users| && seen == SeenAt(users, i)
      invariant actions == plan[..i]
    {
      PlannedAt(users, links, existing, company, i);
      TakeOneMore(plan, i);
      var action;
      action, seen := PlanUser(users[i], links, departmentIds, byName, owners, company, seen);
      actions := actions + [action];
    }
  }

  lemma {:induction false} NothingSeen(users: seq<OaUser>)
    ensures SeenAt(users, 0) == {}
  {
  }

  lemma {:induction false} PlannedAt(
      users: seq<OaUser>, links: seq<Link>, existing: seq<UserEntry>, company: string, i: nat)
    requires i < |users|
    ensures
      Plan(users, links, existing, company)[i]
      == Decided(links, ByName(existing), Owners(existing), company, users[i], SeenAt(users, i))
    ensures
      SeenAt(users, i + 1)
      == SeenAt(users, i) + if users[i].Account() != "" && users[i].FullName() != "" then {users[i].Account()} else {}
  {
  }

  lemma {:induction false} TakeOneMore(actions: seq<UserAction>, i: nat)
    requires i < |actions|
    ensures actions[..i + 1] == actions[..i] + [actions[i]]
  {
  }

  /** One turn of the planner's loop. */
  method PlanUser(
      u: OaUser, ghost links: seq<Link>, departmentIds: map<int, seq<int>>, byName: map<string, UserEntry>,
      owners: map<string, int>, company: string, seen: set<string>)
    returns (action: UserAction, seen': set<string>)
    requires Groups(departmentIds, links)
    ensures action == Decided(links, byName, owners, company, u, seen)
    ensures seen' == seen + if u.Account() != "" && u.FullName() != "" then {u.Account()} else {}
  {
    hide DepartmentsOf, BuildOaUid, OaUser.Account, OaUser.FullName, Compared;
    var account, fullName := u.Account(), u.FullName();
    seen' := seen;
    action := UserAction(Skip, account, None, None, None, None);
    if account == "" {
      action := action.(reason := Some(EmptyAccount));
      return;
    }
    if fullName == "" {
      action := action.(reason := Some(EmptyName));
      return;
    }
    if account in seen {
      action := action.(reason := Some(DuplicateAccount));
      return;
    }
    seen' := seen + {account};
    if u.oaDepartmentId.None? {
      action := action.(reason := Some(NoDepartment));
      return;
    }
    var matched := if u.oaDepartmentId.value in departmentIds then departmentIds[u.oaDepartmentId.value] else [];
    assert matched == DepartmentsOf(links, u.oaDepartmentId.value);
    if |matched| != 1 {
      action := action.(reason := Some(if matched == [] then UnknownDepartment else AmbiguousDepartment));
      return;
    }
    action := CompareUser(action, matched[0], BuildOaUid(company, account), fullName, byName, owners);
  }

  method CompareUser(
      action: UserAction, department: int, uid: string, fullName: string, byName: map<string, UserEntry>,
      owners: map<string, int>) returns (decided: UserAction)
    ensures decided == Compared(action, department, uid, fullName, byName, owners)
  {
    if uid in owners && (action.account !in byName || owners[uid] != byName[action.account].id) {
      return action.(kind := Conflict, reason := Some(TakenIdentity));
    }
    if action.account !in byName {
      return action.(kind := Create, departmentId := Some(department), uid := Some(uid), displayName := Some(fullName));
    }
    var row := byName[action.account].row;
    var moves, renames, relabels := row.departmentId != Some(department), row.uid != uid, row.displayName != Some(fullName);
    if moves || renames || relabels {
      return action.(kind := UpdateIdentity,
                     departmentId := if moves then Some(department) else None,
                     uid := if renames then Some(uid) else None,
                     displayName := if relabels then Some(fullName) else None);
    }
    return action.(departmentId := Some(department), reason := Some(UpToDate));
  }

  // ---- The executor ------------------------------------------------------------------------------

  datatype UserTable = UserTable(rows: map<int, UserRow>, next: int)
  {
    /** The row of a user who is not deleted. */
    predicate IsUser(id: int, name: string) {
      id in rows && rows[id].username == name && !rows[id].deleted
    }

    ghost function Find(name: string): Option<int> {
      if exists id :: IsUser(id, name) then
        var id :| IsUser(id, name);
        Some(id)
      else None
    }

    /** The database refuses a second row with the same name or the same uid, deleted or not. */
    predicate NameTaken(id: int, name: string) {
      exists other :: other in rows && other != id && rows[other].username == name
    }

    predicate UidTaken(id: int, uid: string) {
      exists other :: other in rows && other != id && rows[other].uid == uid
    }

    ghost predicate NamesAreUnique() {
      forall id, other :: id in rows && other in rows && id != other ==> rows[id].username != rows[other].username
    }

    ghost predicate UidsAreUnique() {
      forall id, other :: id in rows && other in rows && id != other ==> rows[id].uid != rows[other].uid
    }
  }

  /** The fields that an action sets, the others as they were. */
  function Updated(row: UserRow, a: UserAction): UserRow {
    row.(departmentId := if a.departmentId.Some? then a.departmentId else row.departmentId,
         uid := a.uid.GetOr(row.uid),
         displayName := if a.displayName.Some? then a.displayName else row.displayName)
  }

  datatype UserError = ConflictingPlan | UserMissing | Duplicate

  type Outcome = Result<UserTable, UserError>

  ghost function Executed(t: UserTable, a: UserAction): Outcome {
    match a.kind
    case Skip => Success(t)
    case Conflict => Failure(ConflictingPlan)
    case Create =>
      var uid := a.uid.GetOr("");
      if t.NameTaken(t.next, a.account) || t.UidTaken(t.next, uid) then Failure(Duplicate)
      else
        Success(UserTable(t.rows[t.next := UserRow(a.account, a.departmentId, uid, a.displayName, false)], t.next + 1))
    case UpdateIdentity =>
      var found := t.Find(a.account);
      if found.None? then Failure(UserMissing)
      else if a.uid.Some? && t.UidTaken(found.value, a.uid.value) then Failure(Duplicate)
      else Success(t.(rows := t.rows[found.value := Updated(t.rows[found.value], a)]))
  }

  ghost function AppliedAt(t: UserTable, actions: seq<UserAction>, i: nat): Outcome
    requires i <= |actions|
  {
    if i == 0 then Success(t)
    else
      var before := AppliedAt(t, actions, i - 1);
      if before.Failure? then before else Executed(before.value, actions[i - 1])
  }

  ghost function Applied(t: UserTable, actions: seq<UserAction>): Outcome {
    AppliedAt(t, actions, |actions|)
  }

  lemma {:induction false} FailureStays(t: UserTable, actions: seq<UserAction>, i: nat, j: nat)
    requires i <= j <= |actions| && AppliedAt(t, actions, i).Failure?
    ensures AppliedAt(t, actions, j) == AppliedAt(t, actions, i)
    decreases j
  {
    if i < j {
      FailureStays(t, actions, i, j - 1);
    }
  }

  /** With unique names the user found is the one there is. */
  lemma {:induction false} FindsTheUser(t: UserTable, id: int, name: string)
    requires t.NamesAreUnique() && t.IsUser(id, name)
    ensures t.Find(name) == Some(id)
  {
  }

  /** The database keeps names and uids unique whatever a plan does. */
  lemma {:induction false} ExecutedKeepsUnique(t: UserTable, a: UserAction)
    requires t.NamesAreUnique() && t.UidsAreUnique() && Executed(t, a).Success?
    requires forall id :: id in t.rows ==> id < t.next
    ensures Executed(t, a).value.NamesAreUnique() && Executed(t, a).value.UidsAreUnique()
    ensures forall id :: id in Executed(t, a).value.rows ==> id < Executed(t, a).value.next
  {
  }

  class UserStore {
    var rows: map<int, UserRow>
    var next: int

    function View(): UserTable
      reads this
    {
      UserTable(rows, next)
    }

    ghost predicate Valid()
      reads this
    {
      View().NamesAreUnique() && View().UidsAreUnique() && forall id :: id in rows ==> id < next
    }

    constructor (table: UserTable)
      requires table.NamesAreUnique() && table.UidsAreUnique() && forall id :: id in table.rows ==> id < table.next
      ensures Valid() && View() == table
    {
      rows, next := table.rows, table.next;
    }

    method ApplyAction(a: UserAction) returns (error: Option<UserError>)
      requires Valid()
      modifies this
      ensures
        var run := Executed(old(View()), a);
        && error == (if run.Failure? then Some(run.error) else None)
        && View() == (if run.Success? then run.value else old(View()))
      ensures Valid()
    {
      error := None;
      if Executed(View(), a).Success? {
        ExecutedKeepsUnique(View(), a);
      }
      if a.kind == UpdateIdentity {
        if !exists id :: id in rows && View().IsUser(id, a.account) {
          return Some(UserMissing);
        }
        var id: int :| id in rows && View().IsUser(id, a.account);
        FindsTheUser(View(), id, a.account);
        if a.uid.Some? && View().UidTaken(id, a.uid.value) {
          return Some(Duplicate);
        }
        var user := rows[id];
        if a.departmentId.Some? {
          user := user.(departmentId := a.departmentId);
        }
        if a.uid.Some? {
          user := user.(uid := a.uid.value);
        }
        if a.displayName.Some? {
          user := user.(displayName := a.displayName);
        }
        rows := rows[id := user];
      } else if a.kind == Conflict {
        return Some(ConflictingPlan);
      } else if a.kind == Create {
        var uid := a.uid.GetOr("");
        if View().NameTaken(next, a.account) || View().UidTaken(next, uid) {
          return Some(Duplicate);
        }
        rows := rows[next := UserRow(a.account, a.departmentId, uid, a.displayName, false)];
        next := next + 1;
      }
    }

    /** All actions in one transaction: an error leaves the table as it was. */
    method ApplyActions(actions: seq<UserAction>) returns (error: Option<UserError>)
      requires Valid()
      modifies this
      ensures
        var run := Applied(old(View()), actions);
        && error == (if run.Failure? then Some(run.error) else None)
        && View() == (if run.Success? then run.value else old(View()))
      ensures Valid()
    {
      var savedRows, savedNext := rows, next;
      var i := 0;
      while i < |actions|
        invariant i <= |actions| && Valid()
        invariant AppliedAt(old(View()), actions, i) == Success(View())
      {
        error := ApplyAction(actions[i]);
        if error.Some? {
          rows, next := savedRows, savedNext;
          FailureStays(old(View()), actions, i + 1, |actions|);
          return;
        }
        i := i + 1;
      }
      error := None;
    }
  }
}
