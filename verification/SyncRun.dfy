/** The ordering of a synchronisation: departments first, users after, and nothing written past a failed check. */
module SyncRun {
  import opened DryRun
  import opened OaSync
  import D = DepartmentPlan
  import DS = DepartmentSync
  import U = UserPlan
  import UR = UserReplay

  lemma {:induction false} SomeElement(ids: set<int>)
    requires ids != {}
    ensures exists id :: id in ids
  {
    assert (forall id :: id !in ids) ==> ids == {};
  }

  method LoadDatabaseDepartments(store: D.DepartmentTable) returns (existing: seq<D.Entry>)
    ensures DS.Lists(existing, store.View())
  {
    existing := [];
    var left := store.rows.Keys;
    while left != {}
      invariant left <= store.rows.Keys
      invariant forall e :: e in existing ==> e.id in store.rows && store.rows[e.id] == e.row
      invariant forall id :: id in store.rows && id !in left ==> D.Entry(id, store.rows[id]) in existing
      decreases left
    {
      SomeElement(left);
      var id :| id in left;
      existing := existing + [D.Entry(id, store.rows[id])];
      left := left - {id};
    }
  }

  method LoadDepartmentLinks(store: D.DepartmentTable) returns (links: seq<U.Link>)
    ensures ListsLinks(links, store.View())
  {
    links := [];
    var left := store.rows.Keys;
    while left != {}
      invariant left <= store.rows.Keys
      invariant forall i, j :: 0 <= i < j < |links| ==> links[i].departmentId != links[j].departmentId
      invariant forall l :: l in links ==>
        l.departmentId in store.rows && l.departmentId !in left && store.rows[l.departmentId].oaId == l.oaId
      invariant forall id :: id in store.rows && id !in left ==> U.Link(id, store.rows[id].oaId) in links
      decreases left
    {
      SomeElement(left);
      var id :| id in left;
      links := links + [U.Link(id, store.rows[id].oaId)];
      left := left - {id};
    }
  }

  method LoadUsers(store: U.UserStore) returns (entries: seq<U.UserEntry>)
    ensures UR.Lists(entries, store.View())
  {
    entries := [];
    var left := store.rows.Keys;
    while left != {}
      invariant left <= store.rows.Keys
      invariant forall e :: e in entries ==> e.id in store.rows && store.rows[e.id] == e.row && !e.row.deleted
      invariant forall id :: id in store.rows && id !in left && !store.rows[id].deleted ==>
        U.UserEntry(id, store.rows[id]) in entries
      decreases left
    {
      SomeElement(left);
      var id :| id in left;
      if !store.rows[id].deleted {
        entries := entries + [U.UserEntry(id, store.rows[id])];
      }
      left := left - {id};
    }
  }

  datatype Args = Args(url: string, licenseFile: string, apply: bool)

  /**
   One run. The people and the departments have been fetched; `existing`, `links` and `entries` are
   what the database listed on the way.
   */
  method Run(args: Args, request: Request, departments: D.DepartmentTable, users: U.UserStore)
    returns (exit: Exit, departmentCounts: map<D.Kind, nat>, userCounts: map<U.Kind, nat>,
             ghost existing: seq<D.Entry>, ghost links: seq<U.Link>, ghost entries: seq<U.UserEntry>)
    requires users.Valid()
    modifies departments, users
    ensures users.Valid()
    ensures args.url == "" || args.licenseFile == "" ==>
              exit == Code(2) && departments.View() == old(departments.View()) && users.View() == old(users.View())
    ensures !args.apply || exit != Code(0) ==> users.View() == old(users.View())
    ensures !args.apply || D.Conflict in departmentCounts ==> departments.View() == old(departments.View())
    ensures exit == Code(1) <==> D.Conflict in departmentCounts || U.Conflict in userCounts
    ensures args.url != "" && args.licenseFile != "" ==>
              var t, us := old(departments.View()), old(users.View());
              && IsListing(t, us, existing, entries)
              && (args.apply && DS.ConflictFree(request.DepartmentPlan(existing))
                  && D.Applied(t, request.DepartmentPlan(existing)).Success?
                  ==> ListsLinks(links, D.Applied(t, request.DepartmentPlan(existing)).value.table))
              && var outcome := if args.apply then WritingOutcome(request, t, us, existing, links, entries)
                                else DryOutcome(request, t, us, existing, entries);
                 && exit == outcome.exit
                 && departments.View() == outcome.departments && users.View() == outcome.users
                 && IsTally(departmentCounts, outcome.departmentKinds) && IsTally(userCounts, outcome.userKinds)
  {
    departmentCounts, userCounts := map[], map[];
    existing, links, entries := [], [], [];
    if args.url == "" || args.licenseFile == "" {
      exit := Code(2);
      return;
    }
    var listed := LoadDatabaseDepartments(departments);
    existing := listed;
    var loaded := LoadUsers(users);
    entries := loaded;
    var departmentActions := D.BuildDepartmentActions(request.departments, listed);
    departmentCounts := CountActions(DepartmentKinds(departmentActions));
    ConflictsSeen(departmentActions);
    assert IsTally(userCounts, []);
    if D.Conflict in departmentCounts {
      exit := Code(1);
      return;
    }
    var inputs;
    if args.apply {
      var error := departments.ApplyActions(departmentActions);
      if error.Some? {
        exit := Raised;
        return;
      }
      inputs := LoadDepartmentLinks(departments);
      links := inputs;
    } else {
      inputs := BuildPostDepartmentInputs(departmentActions);
    }
    var userActions := U.BuildMigrationActions(request.people, inputs, loaded, request.company);
    userCounts := CountActions(UserKinds(userActions));
    if U.Conflict in userCounts {
      exit := Code(1);
      return;
    }
    exit := Code(0);
    if args.apply {
      var error := users.ApplyActions(userActions);
      if error.Some? {
        exit := Raised;
      }
    }
  }
}
