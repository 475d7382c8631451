/**
 * The decision logic of the account views and their effects on the shared
 * ledger: the group gate of the create and delete views, the group that
 * registration grants, the list page's action routing and dropdown, and the
 * create, update, update-select and bulk-delete effects on the store.
 */
module Views {
  import opened Wrappers
  import opened Models

  const AllPermissions := "all_permissions"
  const NewHirePermissions := "new_hire_permissions"

  // Route names used as redirect targets.
  const TrialBalanceRoute := "trial_balance"
  const DeleteAccountRoute := "delete_account"
  const AccountUpdateSelectRoute := "account_update_select"
  const UserFormRoute := "user_form"
  const UpdateAccountRoute := "update_account"

  /** What a view answers with. */
  datatype Response =
    | Forbidden                              // PermissionDenied, rendered as 403
    | NotFound                               // unknown primary key, rendered as 404
    | Redirect(route: string, pk: Option<int>)
    | RenderList                             // the trial balance page itself

  /** Outcome of a view's `dispatch` override. */
  datatype Gate = Proceed | Denied

  /** The `dispatch` check of the create and delete views. */
  function Dispatch(groups: set<string>): (g: Gate)
    ensures g == Proceed <==> AllPermissions in groups
  {
    if AllPermissions in groups then Proceed else Denied
  }

  /** The gate looks at nothing but membership of the full-access group. */
  lemma DispatchOnlyFullAccess(g1: set<string>, g2: set<string>)
    requires AllPermissions in g1 <==> AllPermissions in g2
    ensures Dispatch(g1) == Dispatch(g2)
  {
  }

  /** Joining more groups never takes access away. */
  lemma DispatchMonotone(g1: set<string>, g2: set<string>)
    requires g1 <= g2 && Dispatch(g1) == Proceed
    ensures Dispatch(g2) == Proceed
  {
  }

  /** The groups of a user after registration added the restricted group. */
  function WithNewHireGroup(groups: set<string>): (r: set<string>)
    ensures NewHirePermissions in r
    ensures forall g :: g != NewHirePermissions ==> (g in r <==> g in groups)
  {
    groups + {NewHirePermissions}
  }

  /** Adding the restricted group twice is the same as adding it once. */
  lemma WithNewHireGroupIdempotent(groups: set<string>)
    ensures WithNewHireGroup(WithNewHireGroup(groups)) == WithNewHireGroup(groups)
  {
  }

  /** Registration neither grants nor revokes access to the create and delete views. */
  lemma RegistrationKeepsAccess(groups: set<string>)
    ensures Dispatch(WithNewHireGroup(groups)) == Dispatch(groups)
  {
  }

  /** A freshly registered user, in no group but the restricted one, is denied. */
  lemma FreshHireDenied()
    ensures WithNewHireGroup({}) == {NewHirePermissions}
    ensures Dispatch(WithNewHireGroup({})) == Denied
  {
  }

  /** One entry of the list page's action dropdown. */
  datatype DropdownEntry = DropdownEntry(name: string, viewClass: string)

  const DropdownListMain: seq<DropdownEntry> := [
    DropdownEntry("Add account", "AccountCreateView"),
    DropdownEntry("Delete account", "AccountDeleteView"),
    DropdownEntry("Update account", "AccountUpdateSelectView")
  ]

  /** `ParentViewTrialBalance.get`: the optional `action` query parameter picks the response. */
  function Route(action: Option<string>): (r: Response)
    ensures r.Redirect? || r == RenderList
    ensures r.Redirect? ==> r.pk == None
    ensures r.Redirect? ==> action.Some?
    ensures r.Redirect? ==> r.route in {DeleteAccountRoute, AccountUpdateSelectRoute, UserFormRoute}
  {
    if action == Some("AccountDeleteView") then Redirect(DeleteAccountRoute, None)
    else if action == Some("AccountUpdateSelectView") then Redirect(AccountUpdateSelectRoute, None)
    else if action == Some("AccountCreateView") then Redirect(UserFormRoute, None)
    else RenderList
  }

  /** Each dropdown entry leads to the view it is named after. */
  lemma DropdownTargets()
    ensures |DropdownListMain| == 3
    ensures Route(Some(DropdownListMain[0].viewClass)) == Redirect(UserFormRoute, None)
    ensures Route(Some(DropdownListMain[1].viewClass)) == Redirect(DeleteAccountRoute, None)
    ensures Route(Some(DropdownListMain[2].viewClass)) == Redirect(AccountUpdateSelectRoute, None)
  {
  }

  /**
   * The list page redirects exactly for the actions the dropdown offers: every
   * offered option leads away, every other or absent action renders the list.
   */
  lemma RouteRedirectsExactlyDropdown(action: Option<string>)
    ensures Route(action).Redirect? <==>
      action.Some? && exists i :: 0 <= i < |DropdownListMain| && DropdownListMain[i].viewClass == action.value
  {
    if Route(action).Redirect? {
      var v := action.value;
      var i := if v == "AccountCreateView" then 0 else if v == "AccountDeleteView" then 1 else 2;
      assert DropdownListMain[i].viewClass == v;
    }
  }

  /** Different dropdown entries lead to different pages. */
  lemma DropdownTargetsDistinct(i: int, j: int)
    requires 0 <= i < |DropdownListMain| && 0 <= j < |DropdownListMain| && i != j
    ensures Route(Some(DropdownListMain[i].viewClass)) != Route(Some(DropdownListMain[j].viewClass))
  {
  }

  /** An authenticated user; only the group memberships matter here. */
  class User {
    var groups: set<string>

    /** A user as `form.save()` creates it: in no group yet. */
    constructor ()
      ensures groups == {}
    {
      groups := {};
    }
  }

  /** `UserRegisterView.form_valid` after the user is saved: join the restricted group. */
  method RegisterFormValid(user: User) returns (r: Response)
    modifies user
    ensures user.groups == WithNewHireGroup(old(user.groups))
    ensures r == Redirect(TrialBalanceRoute, None)
  {
    user.groups := user.groups + {NewHirePermissions};
    r := Redirect(TrialBalanceRoute, None);
  }

  /** The shared account table, keyed by primary key. */
  class Ledger {
    var accounts: map<int, Account>
    var nextPk: int

    /** Every stored account satisfies the derived-field invariant; keys come from the counter. */
    ghost predicate Valid()
      reads this
    {
      1 <= nextPk && forall pk :: pk in accounts ==> 1 <= pk < nextPk && Balanced(accounts[pk])
    }

    constructor ()
      ensures Valid() && accounts == map[] && nextPk == 1
    {
      accounts := map[];
      nextPk := 1;
    }

    /** `objects.create`: insert a saved record under a new key. */
    method Create(name: string, number: int, opening: int, activity: int) returns (pk: int)
      requires Valid()
      modifies this
      ensures Valid()
      ensures pk == old(nextPk) && pk !in old(accounts) && nextPk == old(nextPk) + 1
      ensures accounts == old(accounts)[pk := NewAccount(name, number, opening, activity)]
    {
      pk := nextPk;
      accounts := accounts[pk := NewAccount(name, number, opening, activity)];
      nextPk := nextPk + 1;
    }

    /**
     * The update form's `save`: overwrite the four input fields of one stored
     * record and save it. `found` is false, and nothing changes, for an unknown key.
     */
    method Update(pk: int, name: string, number: int, opening: int, activity: int) returns (found: bool)
      requires Valid()
      modifies this
      ensures Valid() && nextPk == old(nextPk)
      ensures found <==> pk in old(accounts)
      ensures found ==> accounts == old(accounts)[pk := NewAccount(name, number, opening, activity)]
      ensures !found ==> accounts == old(accounts)
    {
      found := pk in accounts;
      if found {
        var edited := accounts[pk].(name := name, number := number, opening := opening, activity := activity);
        SaveIgnoresClosing(edited, 0);
        accounts := accounts[pk := Save(edited)];
      }
    }

    /** `queryset.delete()` on the selected accounts. */
    method DeleteMany(pks: set<int>)
      requires Valid()
      modifies this
      ensures Valid() && nextPk == old(nextPk)
      ensures accounts == old(accounts) - pks
      ensures forall pk :: pk in pks ==> pk !in accounts
      ensures forall pk :: pk in old(accounts) && pk !in pks ==> pk in accounts && accounts[pk] == old(accounts)[pk]
      ensures pks == {} ==> accounts == old(accounts)
    {
      accounts := accounts - pks;
    }

    /** `AccountCreateView`: gate, then create and go back to the list. */
    method CreateView(groups: set<string>, name: string, number: int, opening: int, activity: int)
      returns (r: Response)
      requires Valid()
      modifies this
      ensures Valid()
      ensures Dispatch(groups) == Denied ==>
        r == Forbidden && accounts == old(accounts) && nextPk == old(nextPk)
      ensures Dispatch(groups) == Proceed ==>
        r == Redirect(TrialBalanceRoute, None) && old(nextPk) !in old(accounts) &&
        nextPk == old(nextPk) + 1 &&
        accounts == old(accounts)[old(nextPk) := NewAccount(name, number, opening, activity)]
    {
      if Dispatch(groups) == Denied {
        return Forbidden;
      }
      var _ := Create(name, number, opening, activity);
      r := Redirect(TrialBalanceRoute, None);
    }

    /** `AccountDeleteView`: gate, then delete exactly the selection and go back to the list. */
    method DeleteView(groups: set<string>, selected: set<int>) returns (r: Response)
      requires Valid()
      modifies this
      ensures Valid()
      ensures nextPk == old(nextPk)
      ensures Dispatch(groups) == Denied ==> r == Forbidden && accounts == old(accounts)
      ensures Dispatch(groups) == Proceed ==>
        r == Redirect(TrialBalanceRoute, None) && accounts == old(accounts) - selected
    {
      if Dispatch(groups) == Denied {
        return Forbidden;
      }
      DeleteMany(selected);
      r := Redirect(TrialBalanceRoute, None);
    }

    /**
     * `AccountUpdateSelectView.form_valid`: redirect to the update page of the
     * chosen account. Not gated: the view has no `dispatch` override.
     */
    method UpdateSelectView(selected: int) returns (r: Response)
      requires selected in accounts
      ensures r.Redirect? && r.route == UpdateAccountRoute
      ensures r.pk == Some(selected) && r.pk.value in accounts
    {
      r := Redirect(UpdateAccountRoute, Some(selected));
    }

    /**
     * `AccountUpdateView` on a valid submission: 404 for an unknown key, else
     * update through `save` and go back to the list. Not gated: the view has
     * no `dispatch` override.
     */
    method UpdateView(pk: int, name: string, number: int, opening: int, activity: int)
      returns (r: Response)
      requires Valid()
      modifies this
      ensures Valid()
      ensures nextPk == old(nextPk)
      ensures pk !in old(accounts) ==> r == NotFound && accounts == old(accounts)
      ensures pk in old(accounts) ==>
        r == Redirect(TrialBalanceRoute, None) &&
        accounts == old(accounts)[pk := NewAccount(name, number, opening, activity)]
    {
      var found := Update(pk, name, number, opening, activity);
      r := if found then Redirect(TrialBalanceRoute, None) else NotFound;
    }
  }
}
