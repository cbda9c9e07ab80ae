/** The repair that fills in display names and nothing else. */
module UserNames {
  import opened UserPlan
  import opened UserReplay
  import opened Wrappers

  function NameOnly(a: UserAction): seq<UserAction> {
    if a.kind == UpdateIdentity && a.displayName.Some?
    then [UserAction(UpdateIdentity, a.account, None, None, a.displayName, None)]
    else []
  }

  function FilterDisplayNameOnly(actions: seq<UserAction>): seq<UserAction> {
    if actions == [] then [] else NameOnly(actions[0]) + FilterDisplayNameOnly(actions[1..])
  }

  predicate SetsNameOnly(a: UserAction) {
    a.kind == UpdateIdentity && a.departmentId.None? && a.uid.None? && a.displayName.Some?
  }

  lemma {:induction false} FilteredSetNames(actions: seq<UserAction>)
    ensures forall a :: a in FilterDisplayNameOnly(actions) ==> SetsNameOnly(a)
  {
    if actions != [] {
      FilteredSetNames(actions[1..]);
    }
  }

  /** The same users with the same accounts, departments and identities; only names may differ. */
  ghost predicate OnlyNamesDiffer(t: UserTable, t': UserTable) {
    && t'.rows.Keys == t.rows.Keys && t'.next == t.next
    && forall id :: id in t.rows ==> SameButName(t.rows[id], t'.rows[id])
  }

  predicate SameButName(before: UserRow, after: UserRow) {
    after == before.(displayName := after.displayName)
  }

  lemma {:induction false} RepairedAt(t: UserTable, actions: seq<UserAction>, i: nat)
    requires i <= |actions| && (forall a :: a in actions ==> SetsNameOnly(a)) && t.NamesAreUnique()
    requires forall a :: a in actions ==> exists id :: t.IsUser(id, a.account)
    ensures AppliedAt(t, actions, i).Success? && OnlyNamesDiffer(t, AppliedAt(t, actions, i).value)
  {
    if i > 0 {
      RepairedAt(t, actions, i - 1);
      var x, a := AppliedAt(t, actions, i - 1).value, actions[i - 1];
      assert a in actions;
      var id :| t.IsUser(id, a.account);
      assert SameButName(t.rows[id], x.rows[id]);
      NamesStayUnique(t, x);
      FindsTheUser(x, id, a.account);
    }
  }

  lemma {:induction false} NamesStayUnique(t: UserTable, x: UserTable)
    requires t.NamesAreUnique() && OnlyNamesDiffer(t, x)
    ensures x.NamesAreUnique()
  {
    forall id, other | id in x.rows && other in x.rows && id != other ensures x.rows[id].username != x.rows[other].username {
      assert SameButName(t.rows[id], x.rows[id]) && SameButName(t.rows[other], x.rows[other]);
    }
  }

  lemma {:induction false} FilteredComeFrom(actions: seq<UserAction>, a: UserAction)
    requires a in FilterDisplayNameOnly(actions)
    ensures exists b :: b in actions && b.kind == UpdateIdentity && b.account == a.account
  {
    if a in NameOnly(actions[0]) {
      assert actions[0] in actions;
    } else {
      FilteredComeFrom(actions[1..], a);
    }
  }

  lemma {:induction false} UpdatedAreUsers(input: Input, existing: seq<UserEntry>, t: UserTable, a: UserAction)
    requires SoundUsers(t) && Lists(existing, t) && a in input.Actions(existing) && a.kind == UpdateIdentity
    ensures exists id :: t.IsUser(id, a.account)
  {
    var i :| 0 <= i < |input.Actions(existing)| && input.Actions(existing)[i] == a;
    ActionsCount(input, existing);
    ActsOnAccepted(input, existing, i);
    AcceptedAction(input, existing, i);
    FoundByName(existing, t, a.account);
    hide Input.Accepted, Input.Actions, Input.Wanted, SoundUsers, Lists, ByName, Owners;
  }

  /**
   Restricted to display names, any plan made from the table can be applied, even one with conflicts,
   and creates no user and changes no account, department or identity.
   */
  lemma {:induction false} RepairOnlyNames(input: Input, existing: seq<UserEntry>, t: UserTable)
    requires SoundUsers(t) && Lists(existing, t)
    ensures
      var run := Applied(t, FilterDisplayNameOnly(input.Actions(existing)));
      run.Success? && OnlyNamesDiffer(t, run.value)
  {
    var actions := input.Actions(existing);
    FilteredSetNames(actions);
    forall a | a in FilterDisplayNameOnly(actions) ensures exists id :: t.IsUser(id, a.account) {
      FilteredComeFrom(actions, a);
      var b :| b in actions && b.kind == UpdateIdentity && b.account == a.account;
      UpdatedAreUsers(input, existing, t, b);
    }
    RepairedAt(t, FilterDisplayNameOnly(actions), |FilterDisplayNameOnly(actions)|);
    hide Input.Actions, Lists, UserTable.IsUser, OnlyNamesDiffer;
  }

  // ---- Whose name becomes what ------------------------------------------------------------------------

  /** The row is that of user i, whom the plan does not report as a conflict. */
  predicate IsRepaired(input: Input, existing: seq<UserEntry>, t: UserTable, i: nat, id: int)
    requires i < |input.users|
  {
    input.Accepted(i) && t.IsUser(id, input.Account(i)) && input.Actions(existing)[i].kind != Conflict
  }

  lemma {:induction false} FilteredIff(actions: seq<UserAction>, a: UserAction)
    ensures a in FilterDisplayNameOnly(actions) <==> exists b :: b in actions && [a] == NameOnly(b)
  {
    if actions != [] {
      FilteredIff(actions[1..], a);
      assert forall b :: b in actions <==> b == actions[0] || b in actions[1..];
    }
  }

  /** One of the first i actions names the user of the row. */
  predicate NamesRow(t: UserTable, actions: seq<UserAction>, i: nat, id: int)
    requires i <= |actions|
  {
    exists k :: 0 <= k < i && t.IsUser(id, actions[k].account)
  }

  lemma {:induction false} NamesOneMore(t: UserTable, actions: seq<UserAction>, i: nat, id: int)
    requires i < |actions|
    ensures NamesRow(t, actions, i + 1, id) <==> NamesRow(t, actions, i, id) || t.IsUser(id, actions[i].account)
  {
    hide UserTable.IsUser;
  }

  /** What a list that only sets names does to one row: the name of its user, if the list has one. */
  lemma {:induction false} NamedAt(t: UserTable, actions: seq<UserAction>, i: nat, id: int, name: Option<string>)
    requires i <= |actions| && (forall a :: a in actions ==> SetsNameOnly(a)) && t.NamesAreUnique() && id in t.rows
    requires forall a :: a in actions ==> exists other :: t.IsUser(other, a.account)
    requires forall a :: a in actions && t.IsUser(id, a.account) ==> a.displayName == name
    ensures
      var run := AppliedAt(t, actions, i);
      && run.Success? && OnlyNamesDiffer(t, run.value)
      && run.value.rows[id] == if NamesRow(t, actions, i, id) then t.rows[id].(displayName := name) else t.rows[id]
  {
    hide UserTable.IsUser, UserTable.NamesAreUnique, SetsNameOnly, NamesRow, OnlyNamesDiffer, Executed;
    RepairedAt(t, actions, i);
    SameRows(t, AppliedAt(t, actions, i).value);
    if i == 0 {
      assert !NamesRow(t, actions, 0, id) by { NamesNothing(t, actions, id); }
    } else {
      NamedAt(t, actions, i - 1, id, name);
      NamesOneMore(t, actions, i - 1, id);
      var a := actions[i - 1];
      assert a in actions;
      NamedStep(t, AppliedAt(t, actions, i - 1).value, a, id);
    }
  }

  lemma {:induction false} SameRows(t: UserTable, x: UserTable)
    requires OnlyNamesDiffer(t, x)
    ensures x.rows.Keys == t.rows.Keys
  {
  }

  lemma {:induction false} NamesNothing(t: UserTable, actions: seq<UserAction>, id: int)
    ensures !NamesRow(t, actions, 0, id)
  {
  }

  lemma {:induction false} NamedStep(t: UserTable, x: UserTable, a: UserAction, id: int)
    requires t.NamesAreUnique() && OnlyNamesDiffer(t, x) && SetsNameOnly(a) && id in t.rows
    requires exists other :: t.IsUser(other, a.account)
    ensures
      var run := Executed(x, a);
      && run.Success? && id in run.value.rows && id in x.rows
      && run.value.rows[id] == if t.IsUser(id, a.account) then x.rows[id].(displayName := a.displayName) else x.rows[id]
  {
    var other :| t.IsUser(other, a.account);
    assert SameButName(t.rows[other], x.rows[other]);
    NamesStayUnique(t, x);
    FindsTheUser(x, other, a.account);
    assert t.IsUser(id, a.account) <==> id == other;
  }

  /** The action of a user who is repaired: nothing if the name is right already, else it sets the full name. */
  lemma {:induction false} RepairAction(input: Input, existing: seq<UserEntry>, t: UserTable, i: nat, id: int)
    requires SoundUsers(t) && Lists(existing, t) && i < |input.users| && IsRepaired(input, existing, t, i, id)
    ensures
      var a, name := input.Actions(existing)[i], Some(input.users[i].FullName());
      && a.account == input.Account(i)
      && if t.rows[id].displayName == name then NameOnly(a) == []
         else NameOnly(a) == [UserAction(UpdateIdentity, input.Account(i), None, None, name, None)]
  {
    AcceptedAction(input, existing, i);
    FoundByName(existing, t, input.Account(i));
    assert ByName(existing)[input.Account(i)].id == id;
    hide Input.Accepted, Input.Actions, Input.Account, OaUser.FullName, SoundUsers, Lists, ByName, Owners, BuildOaUid;
  }

  /** An action that sets a name is that of a user who is repaired. */
  lemma {:induction false} NamesComeFrom(input: Input, existing: seq<UserEntry>, t: UserTable, id: int, a: UserAction)
    returns (i: nat)
    requires SoundUsers(t) && Lists(existing, t)
    requires a in FilterDisplayNameOnly(input.Actions(existing)) && t.IsUser(id, a.account)
    ensures i < |input.users| && IsRepaired(input, existing, t, i, id)
    ensures [a] == NameOnly(input.Actions(existing)[i])
  {
    FilteredIff(input.Actions(existing), a);
    var b :| b in input.Actions(existing) && [a] == NameOnly(b);
    i :| 0 <= i < |input.Actions(existing)| && input.Actions(existing)[i] == b;
    ActionsCount(input, existing);
    ActsOnAccepted(input, existing, i);
    hide FilterDisplayNameOnly, Input.Accepted, Input.Actions, Input.Account, SoundUsers, Lists;
  }

  /** Two users who are repaired at one row are the same. */
  lemma {:induction false} RepairedOnce(input: Input, existing: seq<UserEntry>, t: UserTable, i: nat, j: nat, id: int)
    requires i < |input.users| && j < |input.users|
    requires IsRepaired(input, existing, t, i, id) && IsRepaired(input, existing, t, j, id)
    ensures i == j
  {
    if i < j {
      AcceptedDiffer(input, i, j);
    } else if j < i {
      AcceptedDiffer(input, j, i);
    }
    hide Input.Accepted, Input.Actions, Input.Account, Input.Wanted;
  }

  lemma {:induction false} RepairApplies(
      input: Input, existing: seq<UserEntry>, t: UserTable, id: int, name: Option<string>)
    requires SoundUsers(t) && Lists(existing, t) && id in t.rows
    requires forall a :: a in FilterDisplayNameOnly(input.Actions(existing)) && t.IsUser(id, a.account) ==> a.displayName == name
    ensures
      var names := FilterDisplayNameOnly(input.Actions(existing));
      var run := Applied(t, names);
      && run.Success? && id in run.value.rows
      && run.value.rows[id] ==
           if exists a :: a in names && t.IsUser(id, a.account) then t.rows[id].(displayName := name) else t.rows[id]
  {
    hide UserTable.IsUser, SoundUsers, Lists, Input.Actions;
    var names := FilterDisplayNameOnly(input.Actions(existing));
    FilteredSetNames(input.Actions(existing));
    forall a | a in names ensures exists other :: t.IsUser(other, a.account) {
      FilteredComeFrom(input.Actions(existing), a);
      var b :| b in input.Actions(existing) && b.kind == UpdateIdentity && b.account == a.account;
      UpdatedAreUsers(input, existing, t, b);
    }
    UniqueNames(t);
    NamedAt(t, names, |names|, id, name);
    assert NamesRow(t, names, |names|, id) <==> exists a :: a in names && t.IsUser(id, a.account);
  }

  lemma {:induction false} UniqueNames(t: UserTable)
    requires SoundUsers(t)
    ensures t.NamesAreUnique()
  {
  }

  /**
   After the repair every accepted user whom the plan does not report as a conflict shows the full name of
   the office-automation system; every other row is as it was.
   */
  lemma {:induction false} RepairedNames(input: Input, existing: seq<UserEntry>, t: UserTable, id: int)
    requires SoundUsers(t) && Lists(existing, t) && id in t.rows
    ensures
      var run := Applied(t, FilterDisplayNameOnly(input.Actions(existing)));
      && run.Success? && id in run.value.rows
      && (forall i :: 0 <= i < |input.users| && IsRepaired(input, existing, t, i, id) ==>
            run.value.rows[id] == t.rows[id].(displayName := Some(input.users[i].FullName())))
      && ((forall i :: 0 <= i < |input.users| ==> !IsRepaired(input, existing, t, i, id)) ==>
            run.value.rows[id] == t.rows[id])
  {
    hide IsRepaired, UserTable.IsUser, SoundUsers, Lists, Input.Actions, FilterDisplayNameOnly, Applied, OaUser.FullName, NameOnly;
    var names := FilterDisplayNameOnly(input.Actions(existing));
    if i :| 0 <= i < |input.users| && IsRepaired(input, existing, t, i, id) {
      NameOfRepaired(input, existing, t, i, id);
      forall j | 0 <= j < |input.users| && IsRepaired(input, existing, t, j, id) ensures j == i {
        RepairedOnce(input, existing, t, i, j, id);
      }
    } else {
      forall a | a in names ensures !t.IsUser(id, a.account) {
        if t.IsUser(id, a.account) {
          var i := NamesComeFrom(input, existing, t, id, a);
        }
      }
      RepairApplies(input, existing, t, id, None);
    }
  }

  lemma {:induction false} NameOfRepaired(input: Input, existing: seq<UserEntry>, t: UserTable, i: nat, id: int)
    requires SoundUsers(t) && Lists(existing, t) && i < |input.users| && IsRepaired(input, existing, t, i, id) && id in t.rows
    ensures
      var run := Applied(t, FilterDisplayNameOnly(input.Actions(existing)));
      && run.Success? && id in run.value.rows
      && run.value.rows[id] == t.rows[id].(displayName := Some(input.users[i].FullName()))
  {
    hide SoundUsers, Lists, Input.Actions, FilterDisplayNameOnly, Applied, OaUser.FullName, Input.Account, Input.Accepted, NameOnly;
    var names, name := FilterDisplayNameOnly(input.Actions(existing)), Some(input.users[i].FullName());
    RepairAction(input, existing, t, i, id);
    forall a | a in names && t.IsUser(id, a.account) ensures a.displayName == name {
      var j := NamesComeFrom(input, existing, t, id, a);
      RepairedOnce(input, existing, t, i, j, id);
      assert [a][0] == a;
    }
    RepairApplies(input, existing, t, id, name);
    if t.rows[id].displayName != name {
      ActionsCount(input, existing);
      var a := UserAction(UpdateIdentity, input.Account(i), None, None, name, None);
      FilteredIff(input.Actions(existing), a);
      assert input.Actions(existing)[i] in input.Actions(existing);
    }
  }
}
