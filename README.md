# Trial balance ledger — a Dafny model

This project models the logic of the `account` application of a small
bookkeeping web application. That logic has two parts:

- **The account record** (`SimpleTrialBalance`). It has four input fields:
  name, number, opening balance and activity. It also has a derived closing
  balance. Every save overwrites the closing balance with `opening + activity`.
  The record has two text renderings, `"<name> | <number>"` and
  `"<name> | <number> | <opening> | <activity> | <closing>"`.
- **The view logic around one shared ledger**:
  - the group gate of the create and delete views;
  - the group that registration grants;
  - the list page's `action` routing and its dropdown of actions;
  - what the create, update-select, update and bulk-delete views do to the
    table of accounts.

Modules, leaf first:

- `Wrappers` (`wrappers.dfy`): `Option`.
- `Decimal` (`decimal.dfy`): Python's decimal rendering of an `int`, with a
  minus sign for negatives and no leading zeros. It also has `ParseInt`, an
  inverse of that rendering, used to pin the formats down.
- `Models` (`models.dfy`): the `Account` datatype, `Save`, `Str` (`__str__`)
  and `Repr` (`__repr__`). It also has a parser for both renderings; the
  round-trip lemmas relate the renderings to it.
- `Views` (`views.dfy`): the group gate `Dispatch`, the registration group
  `WithNewHireGroup`, the action router `Route` and the dropdown literal.
  It also has a `User` class whose group set registration changes, and a
  `Ledger` class that holds the accounts as a `map<int, Account>` keyed by
  primary key. The `Ledger` methods are the store operations and the views.
  Every method keeps the invariant that each stored account has
  `closing == opening + activity`.
- `Scenarios` (`scenarios.dfy`): the records of the repository's tests,
  rendered as the tests expect, and one request sequence through the views.

Python integers are unbounded, so every balance and number is a Dafny `int`.

Two points where the code is narrower than one might expect:

- The update-select and update views (`account/views.py:77-97`) have no
  `dispatch` override. So `Ledger.UpdateSelectView` and `Ledger.UpdateView`
  take no groups and are not gated: only the create and delete views check
  for "all_permissions".
- The form in `account/forms.py` defines no per-user read-only field logic,
  so no field policy is modelled. The only field rule is that the closing
  balance is excluded from the form.

## Model

| member | source | states |
|---|---|---|
| Decimal.NatToString | account/models.py:19 | the digits of a natural number: never empty, only digits, a leading '0' exactly for zero |
| Decimal.IntToString | account/models.py:16 | Python's rendering of an int: never empty, a leading '-' exactly for negatives, digits everywhere else |
| Decimal.IntRoundTrip | account/models.py:19 | parsing the rendering of any integer gives that integer back |
| Decimal.IntToStringInjective | account/models.py:19 | distinct integers render as distinct text |
| Models.Save | account/models.py:11-13 | after save, closing == opening + activity, and name, number, opening and activity are unchanged |
| Models.NewAccount | account/forms.py:11 | a record built from only the four form inputs and saved: the closing balance is derived, never supplied |
| Models.SaveIgnoresClosing | account/models.py:12 | the saved record does not depend on the closing balance held before the save |
| Models.SaveIdempotent | account/models.py:12 | saving an already-saved record yields the same record |
| Models.SaveFixedPoints | account/models.py:11-13 | save leaves a record unchanged exactly when it already has closing == opening + activity |
| Models.StrRoundTrip | account/models.py:15-16 | for every name, including one that contains the separator, reading back `__str__` gives exactly the name and the number |
| Models.ReprRoundTrip | account/models.py:18-19 | for every name, including one that contains the separator, reading back `__repr__` gives exactly the five fields, in order |
| Models.StrInjective | account/models.py:15-16 | two accounts with the same `__str__` agree on name and number |
| Models.ReprInjective | account/models.py:18-19 | two accounts with the same `__repr__` are equal, whatever their names hold |
| Models.StrPrefixOfRepr | account/models.py:15-19 | `__str__` is a prefix of `__repr__`, which continues with the separator and the opening balance, the activity and the closing balance, each after its own separator |
| Views.Dispatch | account/views.py:51-54 | the create view's gate (the delete view has the same one at lines 66-69) proceeds exactly when "all_permissions" is among the user's groups; otherwise it is denied |
| Views.DispatchOnlyFullAccess | account/views.py:52 | two group sets that agree on "all_permissions" get the same answer from the gate |
| Views.DispatchMonotone | account/views.py:67 | joining more groups never takes access away |
| Views.WithNewHireGroup | account/views.py:40-41 | after registration, "new_hire_permissions" is among the groups and every other membership is as before |
| Views.WithNewHireGroupIdempotent | account/views.py:41 | adding the restricted group twice is the same as adding it once |
| Views.RegistrationKeepsAccess | account/views.py:40-53 | registration neither grants nor revokes access to the create and delete views |
| Views.FreshHireDenied | account/views.py:38-54 | a freshly registered user, in no group but "new_hire_permissions", is denied by the create and delete gate |
| Views.Route | account/views.py:115-124 | the list page either redirects, without a key, to one of delete_account, account_update_select and user_form, or renders the list; a redirect needs an action |
| Views.DropdownTargets | account/views.py:108-123 | the dropdown has three entries, leading to user_form, delete_account and account_update_select in that order |
| Views.RouteRedirectsExactlyDropdown | account/views.py:108-124 | the list page redirects exactly when the action is the class of a dropdown entry; every other or absent action renders the list |
| Views.DropdownTargetsDistinct | account/views.py:108-123 | different dropdown entries lead to different pages |
| Views.User.constructor | account/views.py:39 | a user created by registration starts in no group |
| Views.RegisterFormValid | account/views.py:38-43 | the user's groups become `WithNewHireGroup` of the old groups; the response redirects to trial_balance |
| Views.Ledger.constructor | account/models.py:4-9 | an empty table that satisfies the ledger invariant |
| Views.Ledger.Create | account/models.py:11-13 | inserts, under a key not used before, the saved record of the four inputs; every other account is unchanged; the key counter advances by one; the invariant is kept |
| Views.Ledger.Update | account/views.py:86-97 | for a stored key, replaces exactly that account with the saved record of the four new inputs; the old closing balance plays no part; for an unknown key, nothing changes |
| Views.Ledger.DeleteMany | account/views.py:73 | removes exactly the selected keys: selected ones are gone, unselected ones are unchanged, and an empty selection changes nothing |
| Views.Ledger.CreateView | account/views.py:46-54 | denied users get Forbidden and the table and the key counter are unchanged; otherwise one new saved account is added and the response redirects to trial_balance |
| Views.Ledger.DeleteView | account/views.py:62-74 | denied users get Forbidden and the table is unchanged; otherwise exactly the selection is deleted and the response redirects to trial_balance; the key counter is unchanged |
| Views.Ledger.UpdateSelectView | account/views.py:77-83 | redirects to update_account with the chosen account's key, which is a stored key; not gated |
| Views.Ledger.UpdateView | account/views.py:86-97 | an unknown key gives NotFound and no change; otherwise only the targeted account is replaced by its saved update and the response redirects to trial_balance; not gated; the key counter is unchanged |
| Scenarios.GenLedgAcctExample | account/tests.py:8-38 | the test record (GenLedgAcct, 1234, opening 100, activity 10) has closing 110, and both renderings are exactly the strings the three model tests assert |
| Scenarios.NegativeBalanceExample | account/models.py:19 | a negative activity and closing balance render with their minus signs |
| Scenarios.ExampleSession | account/views.py:46-97 | full-access create, then update-select and update: the record renders as the tests expect, and the update re-derives closing 120. A freshly registered user's bulk delete then gets Forbidden and the account is still stored, unchanged |

## Left out

- Login and logout (`UserLoginView`, `UserLogoutView`), sessions and login-failure messages: these are the web framework's authentication views and templates.
- User creation by `form.save()` and the `login` call in `UserRegisterView.form_valid`: they belong to the framework's user-creation and session machinery. The model starts from the created user (`Views.User.constructor`).
- Form validation: required fields, integer parsing, `max_length=30` on the name, password strength, email syntax. The registration, delete and update-select forms are not part of this model. Each view is modelled on a submission its form has already accepted.
- Views.Ledger.UpdateSelectView: requires that the chosen key is stored. The selection form, which is not part of this model, offers only stored accounts.
- The `user` keyword argument passed to `TrialBalanceForm`: the form shown defines nothing that uses it. So there is no per-user read-only field policy to model.
- Rendering of the list page: `Views.Route` answers `RenderList` and does not model the order of `objects.all()` or the template.
- URL routing: route names are opaque redirect targets.
- The database's integer width and primary-key allocation beyond a counter: keys are fresh positive integers.
- The value an unsaved record holds in `closing_balance` (unset in Python): `Models.NewAccount` starts from 0. `Models.SaveIgnoresClosing` shows that this value cannot matter.
- Concurrency between requests: the hosting server handles it.
