/** What a synchronisation leaves in the database, and what its exit code says about it. */
module SyncOutcome {
  import opened DepartmentTree
  import opened DryRun
  import opened OaSync
  import opened Wrappers
  import D = DepartmentPlan
  import DS = DepartmentSync
  import DR = DepartmentReplay
  import U = UserPlan
  import UR = UserReplay

  /** Every department that is kept has its row under its parent, and all other rows are as they were. */
  ghost predicate DepartmentsPlaced(departments: seq<OaDepartment>, t: D.Table, table: D.Table) {
    exists x: D.Session ::
      && x.table == table && x.mapped.Keys == DR.KeptIds(departments, |departments|)
      && (forall i :: 0 <= i < |departments| && departments[i].oaId in x.mapped ==> DS.Placed(x, departments[i]))
      && DS.Preserved(t, x)
  }

  /** Every accepted user has a row, and every row is as it was or that of an accepted user. */
  ghost predicate UsersPlaced(input: UR.Input, users: U.UserTable, table: U.UserTable) {
    && (forall i :: 0 <= i < |input.users| && input.Accepted(i) ==> UR.HasRow(input, i, table))
    && (forall id :: id in table.rows ==> UR.Explained(input, |input.users|, users, id, table.rows[id]))
    && (forall id :: id in users.rows ==> id in table.rows)
  }

  lemma {:induction false} AppliedPlaces(t: D.Table, existing: seq<D.Entry>, departments: seq<OaDepartment>)
    requires DS.SoundTable(t) && DS.Lists(existing, t) && DS.SoundInput(departments)
    requires DS.ConflictFree(D.Plan(existing, departments)) && D.Applied(t, D.Plan(existing, departments)).Success?
    ensures DepartmentsPlaced(departments, t, D.Applied(t, D.Plan(existing, departments)).value.table)
  {
    DR.EveryDepartmentIsPlaced(t, existing, departments);
    hide DS.SoundTable, DS.Lists, DS.SoundInput, DS.ConflictFree, D.Plan, D.Applied, DS.Placed, DS.Preserved, DR.KeptIds;
  }

  lemma {:induction false} AppliedPlacesUsers(input: UR.Input, entries: seq<U.UserEntry>, users: U.UserTable)
    requires UR.SoundUsers(users) && UR.Lists(entries, users) && UR.ConflictFree(input.Actions(entries))
    requires U.Applied(users, input.Actions(entries)).Success?
    ensures UsersPlaced(input, users, U.Applied(users, input.Actions(entries)).value)
  {
    UR.EveryUserIsPlaced(input, entries, users);
    hide UR.SoundUsers, UR.Lists, UR.ConflictFree, U.Applied, UR.Explained, UR.HasRow;
  }

  /** A dry run writes nothing, and reports a conflict exactly if one of its two plans has one. */
  lemma {:induction false} DryRunReports(
      request: Request, t: D.Table, users: U.UserTable, existing: seq<D.Entry>, entries: seq<U.UserEntry>)
    ensures
      var plan := request.DepartmentPlan(existing);
      var outcome := DryOutcome(request, t, users, existing, entries);
      && outcome.departments == t && outcome.users == users
      && outcome.exit ==
           if !DS.ConflictFree(plan) || !UR.ConflictFree(request.UserActions(PostDepartmentInputs(plan), entries)) then Code(1)
           else Code(0)
  {
    var plan := request.DepartmentPlan(existing);
    ConflictsSeen(plan);
    UserConflictsSeen(request.UserActions(PostDepartmentInputs(plan), entries));
    hide DS.ConflictFree, UR.ConflictFree, DepartmentKinds, UserKinds, D.Plan, U.Plan, PostDepartmentInputs;
  }

  /**
   The run that writes. The departments are written, whatever becomes of the users, exactly if their plan
   has no conflict and the database refuses none of them; the users are written exactly if the exit code
   is 0. The exit code is 1 for a conflict and an error is raised for a refusal, and for nothing else.
   */
  lemma {:induction false} WritingRunLeaves(
      request: Request, t: D.Table, users: U.UserTable, existing: seq<D.Entry>, links: seq<U.Link>, entries: seq<U.UserEntry>)
    requires SoundStart(request, t, users) && IsListing(t, users, existing, entries)
    ensures
      var plan, input := request.DepartmentPlan(existing), UR.Input(request.people, links, request.company);
      var outcome := WritingOutcome(request, t, users, existing, links, entries);
      var placed := DS.ConflictFree(plan) && !DepartmentsRefused(t, plan);
      && (if placed then DepartmentsPlaced(request.departments, t, outcome.departments) else outcome.departments == t)
      && (if outcome.exit == Code(0) then UsersPlaced(input, users, outcome.users) else outcome.users == users)
      && outcome.exit ==
           if !DS.ConflictFree(plan) then Code(1)
           else if !placed then Raised
           else if !UR.ConflictFree(input.Actions(entries)) then Code(1)
           else if UsersBlocked(users, input.Actions(entries)) then Raised
           else Code(0)
  {
    hide DS.SoundTable, DS.SoundInput, UR.SoundUsers, InDepartments, DS.Lists, UR.Lists, D.Plan, U.Plan, DS.Refused, D.Applied,
         U.Applied, DS.ConflictFree, UR.ConflictFree, UsersPlaced, DepartmentsPlaced, UR.Blocked, DepartmentKinds, UserKinds;
    var plan, input := request.DepartmentPlan(existing), UR.Input(request.people, links, request.company);
    ConflictsSeen(plan);
    if DS.ConflictFree(plan) {
      DR.PlanAppliesIff(t, existing, request.departments);
      if !DepartmentsRefused(t, plan) {
        AppliedPlaces(t, existing, request.departments);
        UserConflictsSeen(input.Actions(entries));
        if UR.ConflictFree(input.Actions(entries)) {
          UR.PlanAppliesIff(input, entries, users);
          if !UsersBlocked(users, input.Actions(entries)) {
            AppliedPlacesUsers(input, entries, users);
          }
        }
      }
    }
  }
}
