/**
 The dry run foretells the run that writes: both decide the same about every department and every
 user, whatever the order in which the database lists its rows, up to the keys of new departments.
 */
module DryRun {
  import opened DepartmentTree
  import opened OaSync
  import opened Wrappers
  import D = DepartmentPlan
  import DS = DepartmentSync
  import DR = DepartmentReplay
  import U = UserPlan
  import UR = UserReplay

  // ---- The order of the rows does not matter ------------------------------------------------------

  lemma {:induction false} SameIndex(t: D.Table, first: seq<D.Entry>, second: seq<D.Entry>)
    requires DS.SoundTable(t) && DS.Lists(first, t) && DS.Lists(second, t)
    ensures D.Index(first) == D.Index(second)
  {
    forall key ensures key in D.Index(first) ==> key in D.Index(second) && D.Index(second)[key] == D.Index(first)[key] {
      IndexedToo(t, first, second, key);
    }
    forall key ensures key in D.Index(second) ==> key in D.Index(first) {
      IndexedToo(t, second, first, key);
    }
    hide DS.SoundTable, DS.Lists, D.Index;
  }

  lemma {:induction false} IndexedToo(t: D.Table, first: seq<D.Entry>, second: seq<D.Entry>, key: D.Key)
    requires DS.SoundTable(t) && DS.Lists(first, t) && DS.Lists(second, t)
    ensures key in D.Index(first) ==> key in D.Index(second) && D.Index(second)[key] == D.Index(first)[key]
  {
    if key in D.Index(first) {
      DS.IndexedRow(first, t, key);
      DS.IndexFinds(second, t, D.Index(first)[key].id);
    }
  }

  lemma {:induction false} SamePlanner(
      t: D.Table, first: seq<D.Entry>, second: seq<D.Entry>, departments: seq<OaDepartment>, i: nat)
    requires DS.SoundTable(t) && DS.Lists(first, t) && DS.Lists(second, t) && i <= |departments|
    ensures D.PlanAt(first, departments, i) == D.PlanAt(second, departments, i)
  {
    if i == 0 {
      SameIndex(t, first, second);
    } else {
      SamePlanner(t, first, second, departments, i - 1);
    }
    hide DS.SoundTable, DS.Lists, D.Index, D.Planner.Noted;
  }

  lemma {:induction false} SameDepartmentPlan(
      t: D.Table, first: seq<D.Entry>, second: seq<D.Entry>, departments: seq<OaDepartment>)
    requires DS.SoundTable(t) && DS.Lists(first, t) && DS.Lists(second, t)
    ensures D.Plan(first, departments) == D.Plan(second, departments)
  {
    forall i | 0 <= i < |departments| ensures D.Plan(first, departments)[i] == D.Plan(second, departments)[i] {
      SamePlanner(t, first, second, departments, i);
    }
    hide DS.SoundTable, DS.Lists, D.PlanAt, D.Planner.Decided;
  }

  lemma {:induction false} SameByName(t: U.UserTable, first: seq<U.UserEntry>, second: seq<U.UserEntry>)
    requires UR.SoundUsers(t) && UR.Lists(first, t) && UR.Lists(second, t)
    ensures U.ByName(first) == U.ByName(second)
  {
    forall name ensures name in U.ByName(first) <==> name in U.ByName(second)
      ensures name in U.ByName(first) && name in U.ByName(second) ==> U.ByName(first)[name] == U.ByName(second)[name]
    {
      UR.FoundByName(first, t, name);
      UR.FoundByName(second, t, name);
      UR.ByNameHolds(first, name);
      UR.ByNameHolds(second, name);
    }
    hide UR.Lists, U.ByName;
  }

  lemma {:induction false} OwnersAreNamed(existing: seq<U.UserEntry>)
    ensures "" !in U.Owners(existing)
  {
    if existing != [] {
      OwnersAreNamed(existing[..|existing| - 1]);
    }
  }

  lemma {:induction false} OwnedToo(t: U.UserTable, first: seq<U.UserEntry>, second: seq<U.UserEntry>, uid: string)
    requires UR.SoundUsers(t) && UR.Lists(first, t) && UR.Lists(second, t)
    ensures uid in U.Owners(first) ==> uid in U.Owners(second) && U.Owners(second)[uid] == U.Owners(first)[uid]
  {
    OwnersAreNamed(first);
    if uid in U.Owners(first) {
      UR.OwnersHold(first, uid);
      var e :| e in first && UR.IsOwner(e, uid, U.Owners(first)[uid]);
      UR.FoundOwner(second, t, uid, e.id);
    }
  }

  lemma {:induction false} SameOwners(t: U.UserTable, first: seq<U.UserEntry>, second: seq<U.UserEntry>)
    requires UR.SoundUsers(t) && UR.Lists(first, t) && UR.Lists(second, t)
    ensures U.Owners(first) == U.Owners(second)
  {
    forall uid ensures uid in U.Owners(first) ==> uid in U.Owners(second) && U.Owners(second)[uid] == U.Owners(first)[uid] {
      OwnedToo(t, first, second, uid);
    }
    forall uid ensures uid in U.Owners(second) ==> uid in U.Owners(first) {
      OwnedToo(t, second, first, uid);
    }
    hide UR.SoundUsers, UR.Lists, U.Owners;
  }

  // ---- Placeholders and keys ----------------------------------------------------------------------

  /** The placeholder of a department that was created is renamed to its key. */
  function Renamed(mapped: map<int, int>, a: U.UserAction): U.UserAction {
    if a.departmentId.Some? && -a.departmentId.value in mapped && a.departmentId.value < 0
    then a.(departmentId := Some(mapped[-a.departmentId.value]))
    else a
  }

  /** Users are in departments that exist. */
  ghost predicate InDepartments(users: U.UserTable, t: D.Table) {
    forall id :: id in users.rows && users.rows[id].departmentId.Some? ==> users.rows[id].departmentId.value in t.rows
  }

  /** The same departments by another name: a key both know, or a placeholder and a new key. */
  predicate SameDepartments(t: D.Table, mapped: map<int, int>, k: int, dry: seq<int>, actual: seq<int>) {
    if k in mapped then |dry| == |actual| == 1 && actual[0] == mapped[k] && DS.SameImage(t, k, dry[0], actual[0])
    else dry == actual == []
  }

  lemma {:induction false} ComparedAlike(
      t: D.Table, mapped: map<int, int>, k: int, dry: int, actual: int, account: string, uid: string, name: string,
      byName: map<string, U.UserEntry>, owners: map<string, int>)
    requires DS.SoundTable(t) && k > 0 && k in mapped && mapped[k] == actual && DS.SameImage(t, k, dry, actual)
    requires account in byName && byName[account].row.departmentId.Some? ==> byName[account].row.departmentId.value in t.rows
    ensures
      var skip := U.UserAction(U.Skip, account, None, None, None, None);
      U.Compared(skip, actual, uid, name, byName, owners)
      == Renamed(mapped, U.Compared(skip, dry, uid, name, byName, owners))
  {
  }

  /** The two user plans agree on every user. */
  lemma {:induction false} DecidedAlike(
      t: D.Table, mapped: map<int, int>, users: U.UserTable, existing: seq<U.UserEntry>, dry: seq<U.Link>,
      actual: seq<U.Link>, company: string, u: U.OaUser, seen: set<string>)
    requires DS.SoundTable(t) && UR.SoundUsers(users) && UR.Lists(existing, users) && InDepartments(users, t)
    requires forall k :: SameDepartments(t, mapped, k, U.DepartmentsOf(dry, k), U.DepartmentsOf(actual, k))
    requires forall k :: k in mapped ==> k > 0
    ensures
      U.Decided(actual, U.ByName(existing), U.Owners(existing), company, u, seen)
      == Renamed(mapped, U.Decided(dry, U.ByName(existing), U.Owners(existing), company, u, seen))
    ensures U.Rejected(actual, u, seen) == U.Rejected(dry, u, seen)
  {
    var name := u.Account();
    if u.oaDepartmentId.Some? {
      var k: int := u.oaDepartmentId.value;
      assert SameDepartments(t, mapped, k, U.DepartmentsOf(dry, k), U.DepartmentsOf(actual, k));
      if k in mapped {
        UR.FoundByName(existing, users, name);
        ComparedAlike(t, mapped, k, U.DepartmentsOf(dry, k)[0], U.DepartmentsOf(actual, k)[0], name,
                      U.BuildOaUid(company, name), u.FullName(), U.ByName(existing), U.Owners(existing));
      }
    }
    hide U.DepartmentsOf, U.ByName, U.Owners, U.Compared, U.BuildOaUid, U.OaUser.Account, U.OaUser.FullName,
         DS.SoundTable, UR.SoundUsers, UR.Lists, DS.SameImage;
  }

  /** The departments of both runs and the people of the office-automation system. */
  datatype Request = Request(departments: seq<OaDepartment>, people: seq<U.OaUser>, company: string)
  {
    function DepartmentPlan(existing: seq<D.Entry>): seq<D.DepartmentAction> {
      D.Plan(existing, departments)
    }

    function UserActions(links: seq<U.Link>, existing: seq<U.UserEntry>): seq<U.UserAction> {
      U.Plan(people, links, existing, company)
    }
  }

  ghost predicate ActionsAlike(mapped: map<int, int>, dry: seq<U.UserAction>, actual: seq<U.UserAction>) {
    |dry| == |actual| && forall i :: 0 <= i < |dry| ==> actual[i] == Renamed(mapped, dry[i])
  }

  lemma {:induction false} LinksAlike(
      t: D.Table, existing: seq<D.Entry>, departments: seq<OaDepartment>, p: D.Planner, x: D.Session,
      links: seq<U.Link>, k: int)
    requires Plannable(t, existing, departments) && NoStrangers(t, D.Plan(existing, departments))
    requires p == D.PlanAt(existing, departments, |departments|)
    requires DS.InStep(t, existing, departments, |departments|, p, x) && ListsLinks(links, x.table)
    ensures
      var dry := PostDepartmentInputs(D.Plan(existing, departments));
      SameDepartments(t, x.mapped, k, U.DepartmentsOf(dry, k), U.DepartmentsOf(links, k))
  {
    var plan := D.Plan(existing, departments);
    ActualLinks(t, existing, departments, p, x, links, k);
    DistinctInput(departments);
    DryLinks(existing, departments, |departments|, k);
    assert plan[..|departments|] == plan;
    assert DS.MappedAlike(t, p, x);
    assert k in x.mapped ==> k in p.mapped && DS.SameImage(t, k, p.mapped[k], x.mapped[k]);
    hide DS.InStep, Plannable, NoStrangers, U.DepartmentsOf, D.PlanAt, PostDepartmentInputs, DS.SameImage, D.Plan;
  }

  lemma {:induction false} MappedArePositive(departments: seq<OaDepartment>, x: D.Session, k: int)
    requires DS.SoundInput(departments) && DS.AllPlaced(departments, |departments|, x) && k in x.mapped
    ensures k > 0
  {
    assert DS.Among(departments, |departments|, k);
  }

  /**
   Dry-run fidelity: the plan for the users made from the department plan is the one made from the
   table after the departments have been written, up to the keys of the departments created.
   */
  lemma {:induction false} UserPlansAgree(
      request: Request, t: D.Table, existing: seq<D.Entry>, users: U.UserTable, first: seq<U.UserEntry>,
      second: seq<U.UserEntry>, links: seq<U.Link>)
    requires Plannable(t, existing, request.departments)
    requires D.Applied(t, request.DepartmentPlan(existing)).Success?
    requires NoStrangers(t, request.DepartmentPlan(existing))
    requires ListsLinks(links, D.Applied(t, request.DepartmentPlan(existing)).value.table)
    requires UR.SoundUsers(users) && UR.Lists(first, users) && UR.Lists(second, users) && InDepartments(users, t)
    ensures
      var plan := request.DepartmentPlan(existing);
      ActionsAlike(D.Applied(t, plan).value.mapped, request.UserActions(PostDepartmentInputs(plan), first),
                   request.UserActions(links, second))
  {
    var departments := request.departments;
    var plan := request.DepartmentPlan(existing);
    var x, p := D.Applied(t, plan).value, D.PlanAt(existing, departments, |departments|);
    var dry := PostDepartmentInputs(plan);
    AppliedInStep(t, existing, departments);
    forall k ensures SameDepartments(t, x.mapped, k, U.DepartmentsOf(dry, k), U.DepartmentsOf(links, k)) {
      LinksAlike(t, existing, departments, p, x, links, k);
    }
    assert DS.AllPlaced(departments, |departments|, x) && DS.SoundInput(departments) && DS.SoundTable(t);
    forall k | k in x.mapped ensures k > 0 {
      MappedArePositive(departments, x, k);
    }
    hide *;
    UsersAlike(request, t, x.mapped, users, first, second, dry, links);
  }

  lemma {:induction false} UsersAlike(
      request: Request, t: D.Table, mapped: map<int, int>, users: U.UserTable, first: seq<U.UserEntry>,
      second: seq<U.UserEntry>, dry: seq<U.Link>, actual: seq<U.Link>)
    requires DS.SoundTable(t) && InDepartments(users, t)
    requires UR.SoundUsers(users) && UR.Lists(first, users) && UR.Lists(second, users)
    requires forall k :: SameDepartments(t, mapped, k, U.DepartmentsOf(dry, k), U.DepartmentsOf(actual, k))
    requires forall k :: k in mapped ==> k > 0
    ensures ActionsAlike(mapped, request.UserActions(dry, first), request.UserActions(actual, second))
  {
    hide DS.SoundTable, InDepartments, UR.SoundUsers, UR.Lists, SameDepartments, U.Decided, Renamed, U.ByName, U.Owners;
    SameByName(users, first, second);
    SameOwners(users, first, second);
    forall i | 0 <= i < |request.people|
      ensures request.UserActions(actual, second)[i] == Renamed(mapped, request.UserActions(dry, first)[i])
    {
      U.PlannedAt(request.people, dry, first, request.company, i);
      U.PlannedAt(request.people, actual, second, request.company, i);
      DecidedAlike(t, mapped, users, second, dry, actual, request.company, request.people[i], U.SeenAt(request.people, i));
      hide U.Plan;
    }
  }

  // ---- The two runs -------------------------------------------------------------------------------

  datatype Exit = Code(code: int) | Raised

  /** What a run reports and what it leaves in the database. */
  datatype Outcome = Outcome(
    exit: Exit, departmentKinds: seq<D.Kind>, userKinds: seq<U.Kind>, departments: D.Table, users: U.UserTable)

  function DepartmentKinds(actions: seq<D.DepartmentAction>): seq<D.Kind> {
    seq(|actions|, i requires 0 <= i < |actions| => actions[i].kind)
  }

  function UserKinds(actions: seq<U.UserAction>): seq<U.Kind> {
    seq(|actions|, i requires 0 <= i < |actions| => actions[i].kind)
  }

  function DryOutcome(
      request: Request, t: D.Table, users: U.UserTable, existing: seq<D.Entry>, entries: seq<U.UserEntry>): Outcome
  {
    var kinds := DepartmentKinds(request.DepartmentPlan(existing));
    if D.Conflict in kinds then Outcome(Code(1), kinds, [], t, users)
    else
      var dry := PostDepartmentInputs(request.DepartmentPlan(existing));
      var userKinds := UserKinds(request.UserActions(dry, entries));
      Outcome(Code(if U.Conflict in userKinds then 1 else 0), kinds, userKinds, t, users)
  }

  ghost function WritingOutcome(
      request: Request, t: D.Table, users: U.UserTable, existing: seq<D.Entry>, links: seq<U.Link>,
      entries: seq<U.UserEntry>): Outcome
  {
    var plan := request.DepartmentPlan(existing);
    var kinds := DepartmentKinds(plan);
    if D.Conflict in kinds then Outcome(Code(1), kinds, [], t, users)
    else if D.Applied(t, plan).Failure? then Outcome(Raised, kinds, [], t, users)
    else
      var written := D.Applied(t, plan).value.table;
      var actions := request.UserActions(links, entries);
      if U.Conflict in UserKinds(actions) then Outcome(Code(1), kinds, UserKinds(actions), written, users)
      else if U.Applied(users, actions).Failure? then Outcome(Raised, kinds, UserKinds(actions), written, users)
      else Outcome(Code(0), kinds, UserKinds(actions), written, U.Applied(users, actions).value)
  }

  lemma {:induction false} RenamedAlike(mapped: map<int, int>, users: U.UserTable, dry: seq<U.UserAction>, actual: seq<U.UserAction>)
    requires ActionsAlike(mapped, dry, actual)
    ensures UserKinds(dry) == UserKinds(actual)
    ensures (exists a :: a in dry && UR.Blocked(users, a)) <==> (exists a :: a in actual && UR.Blocked(users, a))
  {
    forall i | 0 <= i < |dry| ensures UR.Blocked(users, dry[i]) <==> UR.Blocked(users, actual[i]) {
      assert actual[i] == Renamed(mapped, dry[i]);
      BlockedAlike(users, dry[i], actual[i]);
    }
    assert forall i :: 0 <= i < |dry| ==> dry[i].kind == actual[i].kind;
    hide UR.Blocked, Renamed;
    if a :| a in dry && UR.Blocked(users, a) {
      var i :| 0 <= i < |dry| && dry[i] == a;
      assert actual[i] in actual;
    }
    if a :| a in actual && UR.Blocked(users, a) {
      var i :| 0 <= i < |actual| && actual[i] == a;
      assert dry[i] in dry;
    }
  }

  lemma {:induction false} BlockedAlike(users: U.UserTable, a: U.UserAction, b: U.UserAction)
    requires a.kind == b.kind && a.account == b.account && a.uid == b.uid
    ensures UR.Blocked(users, a) <==> UR.Blocked(users, b)
  {
    assert forall row :: UR.Blocks(row, a) <==> UR.Blocks(row, b);
    hide UR.Blocks;
  }

  /** What both runs start from. The listings of the writing run may come in another order. */
  ghost predicate SoundStart(request: Request, t: D.Table, users: U.UserTable) {
    && DS.SoundTable(t) && DS.SoundInput(request.departments)
    && UR.SoundUsers(users) && InDepartments(users, t)
  }

  ghost predicate IsListing(t: D.Table, users: U.UserTable, existing: seq<D.Entry>, entries: seq<U.UserEntry>) {
    DS.Lists(existing, t) && UR.Lists(entries, users)
  }

  /** The database will refuse the departments: some action's identity belongs to another row. */
  ghost predicate DepartmentsRefused(t: D.Table, plan: seq<D.DepartmentAction>) {
    exists a :: a in plan && DS.Refused(t, a)
  }

  ghost predicate UsersBlocked(users: U.UserTable, actions: seq<U.UserAction>) {
    exists a :: a in actions && UR.Blocked(users, a)
  }

  lemma {:induction false} ConflictsSeen(plan: seq<D.DepartmentAction>)
    ensures D.Conflict in DepartmentKinds(plan) <==> !DS.ConflictFree(plan)
  {
    if i :| 0 <= i < |plan| && plan[i].kind == D.Conflict {
      assert DepartmentKinds(plan)[i] in DepartmentKinds(plan);
    }
  }

  lemma {:induction false} UserConflictsSeen(actions: seq<U.UserAction>)
    ensures U.Conflict in UserKinds(actions) <==> !UR.ConflictFree(actions)
  {
    if i :| 0 <= i < |actions| && actions[i].kind == U.Conflict {
      assert UserKinds(actions)[i] in UserKinds(actions);
    }
  }

  /** A department plan with a conflict stops both runs, before anything is written. */
  lemma {:induction false} ConflictStopsBoth(
      request: Request, t: D.Table, users: U.UserTable, existing: seq<D.Entry>, existing': seq<D.Entry>,
      entries: seq<U.UserEntry>, entries': seq<U.UserEntry>, links: seq<U.Link>)
    requires SoundStart(request, t, users) && IsListing(t, users, existing, entries) && IsListing(t, users, existing', entries')
    ensures
      var dry := DryOutcome(request, t, users, existing, entries);
      var actual := WritingOutcome(request, t, users, existing', links, entries');
      && dry.departmentKinds == actual.departmentKinds && dry.departments == t && dry.users == users
      && (D.Conflict in dry.departmentKinds ==> dry == actual && dry.exit == Code(1))
  {
    hide DS.SoundTable, DS.SoundInput, UR.SoundUsers, InDepartments, DS.Lists, UR.Lists, D.Plan, U.Plan, D.Applied,
         U.Applied, DepartmentKinds, UserKinds, PostDepartmentInputs;
    SameDepartmentPlan(t, existing, existing', request.departments);
    assert request.DepartmentPlan(existing') == request.DepartmentPlan(existing);
  }

  /**
   The dry run foretells the run that writes. Without a conflict among the departments: the same
   counts and the same exit code, unless the database refuses an identity that another row or a
   deleted user holds, and that can be told from the two dry plans and the tables before the run.
   */
  lemma {:induction false} DryRunForetells(
      request: Request, t: D.Table, users: U.UserTable, existing: seq<D.Entry>, existing': seq<D.Entry>,
      entries: seq<U.UserEntry>, entries': seq<U.UserEntry>, links: seq<U.Link>)
    requires SoundStart(request, t, users) && IsListing(t, users, existing, entries) && IsListing(t, users, existing', entries')
    requires DS.ConflictFree(request.DepartmentPlan(existing)) && NoStrangers(t, request.DepartmentPlan(existing))
    requires D.Applied(t, request.DepartmentPlan(existing)).Success? ==>
               ListsLinks(links, D.Applied(t, request.DepartmentPlan(existing)).value.table)
    ensures
      var plan := request.DepartmentPlan(existing);
      var dry := DryOutcome(request, t, users, existing, entries);
      var actual := WritingOutcome(request, t, users, existing', links, entries');
      if DepartmentsRefused(t, plan) then actual.exit == Raised && actual.departments == t && actual.users == users
      else
        && actual.userKinds == dry.userKinds
        && (dry.exit == Code(1) ==> actual.exit == Code(1) && actual.users == users)
        && (dry.exit == Code(0) ==>
              actual.exit == if UsersBlocked(users, request.UserActions(PostDepartmentInputs(plan), entries)) then Raised
                             else Code(0))
        && (dry.exit == Code(0) || dry.exit == Code(1))
  {
    var plan := request.DepartmentPlan(existing);
    assert IsListing(t, users, existing, entries) && DS.Lists(existing, t) && DS.Lists(existing', t);
    SameDepartmentPlan(t, existing, existing', request.departments);
    assert request.DepartmentPlan(existing') == plan;
    ConflictsSeen(plan);
    DR.PlanAppliesIff(t, existing, request.departments);
    if !DepartmentsRefused(t, plan) {
      UsersForetold(request, t, users, existing, entries, entries', links);
    }
    hide DS.SoundTable, DS.SoundInput, UR.SoundUsers, InDepartments, DS.Lists, UR.Lists, D.Plan, U.Plan, DS.Refused,
         UsersBlocked, U.Applied, NoStrangers, ListsLinks, DepartmentKinds, UserKinds, DS.ConflictFree, D.AppliedAt;
  }

  lemma {:induction false} UsersForetold(
      request: Request, t: D.Table, users: U.UserTable, existing: seq<D.Entry>,
      entries: seq<U.UserEntry>, entries': seq<U.UserEntry>, links: seq<U.Link>)
    requires SoundStart(request, t, users) && DS.Lists(existing, t)
    requires UR.Lists(entries, users) && UR.Lists(entries', users)
    requires DS.ConflictFree(request.DepartmentPlan(existing)) && NoStrangers(t, request.DepartmentPlan(existing))
    requires D.Applied(t, request.DepartmentPlan(existing)).Success?
    requires ListsLinks(links, D.Applied(t, request.DepartmentPlan(existing)).value.table)
    ensures
      var dry := request.UserActions(PostDepartmentInputs(request.DepartmentPlan(existing)), entries);
      var actual := request.UserActions(links, entries');
      && UserKinds(dry) == UserKinds(actual)
      && (U.Conflict !in UserKinds(dry) ==> (U.Applied(users, actual).Failure? <==> UsersBlocked(users, dry)))
  {
    var plan := request.DepartmentPlan(existing);
    var dry := request.UserActions(PostDepartmentInputs(plan), entries);
    var actual := request.UserActions(links, entries');
    UserPlansAgree(request, t, existing, users, entries, entries', links);
    RenamedAlike(D.Applied(t, plan).value.mapped, users, dry, actual);
    UserConflictsSeen(actual);
    if U.Conflict !in UserKinds(dry) {
      var input := UR.Input(request.people, links, request.company);
      assert input.Actions(entries') == actual;
      UR.PlanAppliesIff(input, entries', users);
    }
    hide DS.SoundTable, DS.SoundInput, UR.SoundUsers, InDepartments, DS.Lists, UR.Lists, D.Plan, U.Plan,
         U.AppliedAt, NoStrangers, ListsLinks, UserKinds, DS.ConflictFree, UR.ConflictFree, UR.Blocked, PostDepartmentInputs;
  }
}
