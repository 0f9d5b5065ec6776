# Finance manager core in Dafny

This project models the core of a small personal-finance web application with income/expense "movements", users with an `ADMIN` or `USER` role, and a reports view. It covers:

- **Forms.** The movement-entry form and the user-edit form: validation rules, rule order and what the submit gate forwards.
- **Movements page.** The income, expense and balance cards, the search filter, prepending a created movement, and the admin gate on the add button.
- **Users page.** The search filter, the role counts, and merging an updated user record back into the list.
- **Reports page.** The month-by-month income/expense chart (grouping with `forEach`, sorted labels, two datasets) and the rows of the CSV export.
- **HTTP handlers.** `/api/movements` (GET listing and POST creation), `/api/reports` (listing and `saldo`) and `/api/fix-user-role` (promotes the caller's row to `ADMIN`).
- **Authentication.**
  - The server-side `withAuth` wrapper: 401 without a session, the session attached to the request, a 500 for a synchronous throw.
  - The two client-side page guards: one with a role list, one without.
- **Layout and error page.** The layout's navigation filtering, title and avatar letter, and the message table of the authentication error page.

These parts stay outside the model and enter as parameters:

- **Time.** The browser's clock is the parameter `now`.
- **Dates and numbers.** `new Date(s)` and `Number(s)` are parameter functions: `InstantOf`, `MonthOf`, `DateLabel`, and `toNumber` in `AmountFromInput`.
- **Client-side network.** Each page's `fetch` results are method parameters. Examples: `HandleLoad(result)` and `HandleAddMovement(created)`.
- **Server-side stores.** The database behind the handlers is a field of a class: `MovementStore.rows` and `UserTable.users`. The store's generated id is the parameter `newId`.

Amounts are `real`, with no floating-point rounding. Strings are `seq<char>`.

Modules, one file each:

- `Wrappers` holds `Option` and JavaScript truthiness of an optional string.
- `Text` has `trim`, ASCII `toLowerCase` and `includes`.
- `Seqs` has `filter`, and `Ledger` the sums over amounts.
- `Sessions` is the session object.
- The rest follow the source components: `MovementForm`, `UserEditForm`, `MovementsApi`, `MovementsPage`, `UsersPage`, `ReportsPage`, `ReportsApi`, `ApiAuth`, `RoleGuard`, `SessionGuard`, `Layout`, `FixUserRole` and `AuthError`.

Where the source mutates state, the model is a class: the React component state, the request object the wrapper annotates, and the stores behind the handlers. The chart's `forEach` is a `while` loop (`ReportsPage.GroupByMonth`), proved against the recursive `ReportsPage.Group`. Everything else is pure functions and lemmas.

Where the documentation and the code disagree, the model follows the code:

- The CSV export has four columns: Concepto, Monto, Fecha, Usuario. There is no income/expense type column.
- The movement listing is ordered by `date` descending, not by insertion.
- `/api/reports` calls `findMany()` with no `include`, so each movement's `user` is absent and the export's Usuario column is undefined. `ReportMovement.user` is an `Option` for this reason.
- The chart puts an amount of 0 into `ingresos` (`>= 0`). The movements page labels the same amount "Egreso" (`> 0` is "Ingreso"). `ReportsPage.ChartData` and `Ledger.KindLabel` state each rule as written.
- The movements POST treats an amount of 0 as a missing field and answers 400 (`ZeroAmountIsMissing`).

## Model

| member | source | states |
|---|---|---|
| Text.TrimStart | src/components/MovementForm.tsx:20 | the result is a suffix of the input, what was dropped is all white space, and the result does not start with white space |
| Text.TrimEnd | src/components/MovementForm.tsx:20 | the result is a prefix of the input, what was dropped is all white space, and the result does not end with white space |
| Text.TrimEmptyIffBlank | src/components/MovementForm.tsx:20 | `s.trim()` is empty exactly when `s` is all white space (both directions) |
| Text.TrimEnds | src/components/MovementForm.tsx:42 | a trimmed string is no longer than the input and has no white space at either end |
| Text.TrimIdempotent | src/components/UserEditForm.tsx:36 | trimming twice is trimming once |
| Text.ToLower | src/pages/movements.tsx:93-95 | lower-casing keeps the length and maps each character through the ASCII lower-case map |
| Text.ContainsIffOccurs | src/pages/movements.tsx:93-95 | `includes(s, t)` holds exactly when `t` occurs at some position of `s` (both directions) |
| Text.ContainsEmpty | src/pages/users.tsx:88-90 | every string includes the empty term |
| Text.ContainsSelf | src/pages/users.tsx:88-90 | every string includes itself |
| Seqs.Filter | src/pages/users.tsx:95-96 | the filtered list is no longer than the input, every element comes from the input and passes, and every passing input element is kept |
| Seqs.FilterCount | src/pages/movements.tsx:92-96 | the filter keeps each passing element exactly as many times as it occurs in the input, and no failing element |
| Seqs.Map | src/pages/reports.tsx:91-96 | `map`: one result per element, aligned by index (the amount columns of the pages and of the reports handler are maps of `amount`) |
| Seqs.FilterIsSubsequence | src/pages/movements.tsx:92-96 | `filter` keeps the original order: its result is a subsequence of the input |
| Seqs.FilterAll | src/pages/movements.tsx:92-96 | a predicate every element satisfies filters nothing out |
| Seqs.FilterDisjointBound | src/pages/users.tsx:94-96 | two filters with disjoint predicates select at most `length` elements together |
| Seqs.FilterSnoc | src/pages/reports.tsx:61-69 | filtering a list with one more element at the back appends that element exactly when it passes |
| Ledger.AmountsCons | src/pages/movements.tsx:67 | the amounts after prepending a movement are its amount, then the others' |
| Ledger.SumOfNonNegative | src/pages/movements.tsx:81-83 | a sum of non-negative amounts is non-negative |
| Ledger.SumAbsNonNegative | src/pages/movements.tsx:85-87 | a sum of absolute values is non-negative |
| Ledger.TotalsNonNegative | src/pages/movements.tsx:81-87 | total income and total expenses are never negative |
| Ledger.FilterCons | src/pages/movements.tsx:81-87 | filtering a non-empty list keeps its head exactly when it passes, then filters the rest |
| Ledger.SumCons | src/pages/movements.tsx:81-87 | the sum and the absolute sum after an optional head element add that element |
| Ledger.TotalsCons | src/pages/movements.tsx:81-87 | one more amount adds itself to income if positive, its absolute value to expenses if negative, and to the non-negative sum if `>= 0` |
| Ledger.SumSnoc | src/pages/api/reports.ts:11 | adding an amount at the back adds it to the sum, and its absolute value to the absolute sum |
| Ledger.SumAppend | src/pages/api/reports.ts:11 | the sum of a concatenation is the sum of the parts |
| Ledger.BalanceIsSum | src/pages/movements.tsx:81-89 | income minus expenses equals the plain sum of all amounts |
| Ledger.ZeroIsNeutral | src/pages/movements.tsx:81-87 | an amount of 0 counts neither as income nor as expense |
| Ledger.NonNegativeSumIsIncome | src/pages/reports.tsx:67 | summing the `>= 0` amounts gives the same total as summing the `> 0` amounts |
| Ledger.KindLabel | src/pages/movements.tsx:264 | the badge reads "Ingreso" exactly for positive amounts and "Egreso" for every other amount, including 0 |
| Ledger.DisplayName | src/pages/reports.tsx:95 | the owner's name when it is non-empty, else their email |
| MovementForm.AmountFromInput | src/components/MovementForm.tsx:96-98 | the amount state is empty exactly when the input text is empty, and is otherwise `Number` of the text |
| MovementForm.ValidationError | src/components/MovementForm.tsx:19-36 | a missing field gives the required message; otherwise a non-positive amount or NaN gives the amount message; otherwise a future date gives the date message; `None` exactly when all three checks pass (both directions) |
| MovementForm.MessagesDistinct | src/components/MovementForm.tsx:21-31 | the three messages differ, so the message identifies the failed rule |
| MovementForm.MovementFormState.constructor | src/components/MovementForm.tsx:13-17 | the initial state: empty fields, no error, not submitting |
| MovementForm.MovementFormState.Validate | src/components/MovementForm.tsx:19-36 | returns success exactly when `ValidationError` is `None`, and leaves that rule's message (or "") in `error` |
| MovementForm.MovementFormState.HandleSubmit | src/components/MovementForm.tsx:38-44 | submits exactly when validation passes, with the trimmed concept, the numeric amount and the date; a rejected submit changes only `error` |
| MovementForm.SubmissionWellFormed | finance-manager/src/components/MovementForm.tsx:15-40 | a submission that passes has a non-empty concept with no white space at either end (already trimmed), a positive amount and a date |
| MovementForm.NegativeAmountScenario | src/__tests__/components.test.tsx:37-56 | amount -100 with a concept and a date fails on the amount rule |
| MovementForm.RequiredBeforeAmount | src/components/MovementForm.tsx:20-27 | the rule order: a blank concept reports the required message even when the amount is also invalid |
| MovementForm.ValidScenario | src/__tests__/components.test.tsx:58-79 | a concept, amount 100 and a past date pass validation |
| UserEditForm.InitialName | src/components/UserEditForm.tsx:14 | the name field starts as the user's name, or "" when the name is missing or empty |
| UserEditForm.ValidationError | src/components/UserEditForm.tsx:19-30 | a blank name or empty role gives the required message; the length message exactly when the trimmed name has one character and a role is set; `None` exactly when the trimmed name has at least 2 characters and a role is set |
| UserEditForm.UserEditFormState.constructor | src/components/UserEditForm.tsx:14-17 | the initial state from the edited user |
| UserEditForm.UserEditFormState.SelectRole | src/components/UserEditForm.tsx:65-72 | the selector sets the role to one of the two offered values |
| UserEditForm.UserEditFormState.Validate | src/components/UserEditForm.tsx:19-30 | returns success exactly when `ValidationError` is `None`, and leaves that rule's message (or "") in `error` |
| UserEditForm.UserEditFormState.HandleSubmit | src/components/UserEditForm.tsx:32-38 | submits exactly when valid, with the unchanged id, the trimmed name and the role |
| UserEditForm.BlankNameIsRequired | src/components/UserEditForm.tsx:20-27 | a white-space-only name gets the required message, never the length message |
| UserEditForm.UntrimmedNameIsValid | src/components/UserEditForm.tsx:19-30 | a name of at least two characters with no white space at either end passes with any non-empty role |
| UserEditForm.TestUserScenario | src/__tests__/components.test.tsx:113-121 | the tests' user pre-fills "Test User", and that name validates |
| UserEditForm.ShortNameScenarios | src/__tests__/components.test.tsx:123-153 | a one-letter name hits the length rule; an empty name hits the required rule |
| MovementsApi.HeadIsNewest | src/pages/api/movements.ts:12 | the head of a newest-first list is at least as new as every row in it |
| MovementsApi.ConsNewest | src/pages/api/movements.ts:12 | a row at least as new as every row of a newest-first list can go in front of it |
| MovementsApi.InsertByDate | src/pages/api/movements.ts:12 | inserting a row adds exactly that row to the multiset of rows |
| MovementsApi.InsertByDateSorted | src/pages/api/movements.ts:12 | inserting into a newest-first list keeps it newest first |
| MovementsApi.SortNewestFirst | src/pages/api/movements.ts:12 | `orderBy: { date: "desc" }`: newest first, and a permutation of the stored rows |
| MovementsApi.RowsOf | src/pages/api/movements.ts:9-14 | the rows of a listing, aligned by index |
| MovementsApi.OwnersKnownPermuted | src/pages/api/movements.ts:9-12 | reordering rows keeps every owner known |
| MovementsApi.Join | src/pages/api/movements.ts:11 | each row paired with its own owner's name and email, rows unchanged |
| MovementsApi.ListAll | src/pages/api/movements.ts:8-14 | the GET listing has every stored row once (a permutation), newest first, each with its owner |
| MovementsApi.Post | src/pages/api/movements.ts:15-29 | 400 exactly when a field is falsy (an amount of 0 included); else the created row carries the given concept, amount, parsed date and user, and the new id; else the store refuses |
| MovementsApi.MovementStore.constructor | src/pages/api/movements.ts:5 | an empty table over the given users |
| MovementsApi.MovementStore.Handle | src/pages/api/movements.ts:7-31 | GET lists without changing the table; POST answers as `Post`, and only a created row is appended; any other verb gives 405 and changes nothing; the table keeps known owners and unique ids |
| MovementsApi.NoBusinessRules | src/pages/api/movements.ts:15-29 | the server stores a negative amount with a future date as given: the sign and date checks live only in the form |
| MovementsApi.ZeroAmountIsMissing | src/pages/api/movements.ts:17-19 | a body with amount 0 is answered 400 |
| MovementsPage.StatsOf | src/pages/movements.tsx:81-89 | the cards show the income and expense totals, both non-negative, and a balance equal to their difference and to the sum of all amounts |
| MovementsPage.FilteredMovements | src/pages/movements.tsx:92-96 | exactly the movements whose concept, user name or email contains the term (case-insensitive), each as often as in the list, in their order; an empty term keeps the whole list |
| MovementsPage.EveryMovementMatchesEmpty | src/pages/movements.tsx:92-96 | every movement matches the empty search term |
| MovementsPage.PostBody | src/pages/movements.tsx:62 | the POST body carries the form's three values, and as `userId` the session user's id, absent exactly when there is no user or no id |
| MovementsPage.MovementsPageState.constructor | src/pages/movements.tsx:29-35 | an empty list, loading, no error, modal closed |
| MovementsPage.MovementsPageState.HandleLoad | src/pages/movements.tsx:37-49 | the list becomes `data.movements` or []; a failed request sets the load error and keeps the list; loading ends either way |
| MovementsPage.MovementsPageState.ClickAdd | src/pages/movements.tsx:108-109 | the modal opens only for an admin, and a click on an enabled button always opens it |
| MovementsPage.MovementsPageState.HandleAddMovement | src/pages/movements.tsx:51-74 | a created movement is put at the front and the modal closes; a failure keeps the list and the modal and sets the save error; submitting ends either way |
| MovementsPage.PrependUpdatesStats | src/pages/movements.tsx:67-89 | prepending a movement moves the balance by its amount, income by its positive part and expenses by its negative part |
| MovementsPage.IsAdminCases | src/pages/movements.tsx:76-78 | no session or no user hides the button, a missing role or "ADMIN" shows it, "USER" hides it |
| MovementsPage.FormSubmissionPassesPresenceCheck | src/pages/api/movements.ts:17-19 | what the form lets through always passes the server's presence check, exactly when the session carries a user id |
| MovementsPage.AdminGateMatchesLayout | src/components/Layout.tsx:76-77 | the page's admin rule equals the layout's (missing role is "ADMIN") plus a signed-in user |
| UsersPage.Merge | src/pages/users.tsx:76 | `{ ...u, ...updated }`: each field the response carries overrides, the others keep the old value |
| UsersPage.ReplaceById | src/pages/users.tsx:75-77 | same length and ids; the entry with the response's id is merged, every other entry untouched; no match changes nothing |
| UsersPage.ReplaceIdempotent | src/pages/users.tsx:75-77 | applying the same update twice equals applying it once |
| UsersPage.EveryUserMatchesEmpty | src/pages/users.tsx:87-91 | every user matches the empty search term |
| UsersPage.FilteredUsers | src/pages/users.tsx:87-91 | exactly the users whose name, email or role contains the term (case-insensitive), each as often as in the list, in their order; an empty term keeps everyone |
| UsersPage.CountsOf | src/pages/users.tsx:94-96 | the total, the number of "ADMIN" users and the number of "USER" users, the last two never adding past the total |
| UsersPage.UsersPageState.constructor | src/pages/users.tsx:31-36 | an empty list, loading, no error, no user being edited |
| UsersPage.UsersPageState.HandleLoad | src/pages/users.tsx:38-55 | the list becomes `data.users` or []; a non-ok answer shows its `error` or the permission message, a failed request its own message or the load message; loading ends |
| UsersPage.UsersPageState.HandleEdit | src/pages/users.tsx:57 | the chosen user becomes the one being edited |
| UsersPage.UsersPageState.HandleUpdateUser | src/pages/users.tsx:59-84 | a success merges the response into the list by id and closes the form; a failure keeps the list and sets the update error |
| ReportsPage.GroupLast | src/pages/reports.tsx:61-69 | the grouping after the last movement is one step on the grouping of the ones before it |
| ReportsPage.GroupWellFormed | src/pages/reports.tsx:60-69 | `grouped` lists each month key once in its insertion order, and no other key |
| ReportsPage.GroupKeys | src/pages/reports.tsx:62-66 | a month has a bucket exactly when some movement falls in it (both directions) |
| ReportsPage.GroupNonNegative | src/pages/reports.tsx:66-68 | every bucket's `ingresos` and `egresos` are non-negative |
| ReportsPage.Column | src/pages/reports.tsx:76-81 | `labels.map(l => grouped[l].x)`: one value per label, aligned by index |
| ReportsPage.SumUpdate | src/pages/reports.tsx:67-68 | replacing one entry changes the sum by the difference at that entry |
| ReportsPage.ExpectedSnoc | src/pages/reports.tsx:67-68 | one more movement adds its share to the expected dataset total |
| ReportsPage.StepExistingColumn | src/pages/reports.tsx:66-68 | a step on a month that has a bucket keeps the grouping well formed and adds the movement's share to the column total |
| ReportsPage.StepNewColumn | src/pages/reports.tsx:66-68 | a step on a new month appends its key, keeps the grouping well formed and adds the movement's share to the column total |
| ReportsPage.StepColumn | src/pages/reports.tsx:66-68 | one `forEach` step keeps the grouping well formed and adds the movement's share to the column total |
| ReportsPage.AmountsOfSnoc | src/pages/reports.tsx:61 | the amounts of a list are those of all but the last movement, then the last one's |
| ReportsPage.GroupTotals | src/pages/reports.tsx:60-69 | over the key order, `ingresos` sums to the `>= 0` amounts and `egresos` to the absolute values of the negative ones |
| ReportsPage.MultisetRemove | src/pages/reports.tsx:70 | removing one label removes one occurrence from the multiset |
| ReportsPage.ColumnAppend | src/pages/reports.tsx:76-81 | the column of two label lists put together is their columns put together |
| ReportsPage.ColumnHead | src/pages/reports.tsx:76-81 | a column's sum is its first entry plus the sum of the rest |
| ReportsPage.RemoveMatching | src/pages/reports.tsx:70 | matching the head of a list with an entry of its rearrangement leaves two rests that are rearrangements of each other |
| ReportsPage.ColumnSplit | src/pages/reports.tsx:76-81 | a column's sum is its entry at one label plus the sum without that label |
| ReportsPage.KeysPermuted | src/pages/reports.tsx:70 | a rearrangement of keys still names only keys |
| ReportsPage.ColumnPermutation | src/pages/reports.tsx:70-81 | a dataset's total does not depend on the label order |
| ReportsPage.LexLessIrreflexive | src/pages/reports.tsx:70 | the default sort order is irreflexive |
| ReportsPage.LexLessTransitive | src/pages/reports.tsx:70 | the default sort order is transitive |
| ReportsPage.LexLessTotal | src/pages/reports.tsx:70 | any two different labels are ordered one way or the other |
| ReportsPage.BelowHeadBelowAll | src/pages/reports.tsx:70 | a label below the head of a sorted list is below all of it |
| ReportsPage.InsertLabel | src/pages/reports.tsx:70 | inserting a label adds exactly that label to the multiset |
| ReportsPage.ConsSorted | src/pages/reports.tsx:70 | a label below every entry of a sorted list can go in front of it |
| ReportsPage.InsertLabelSorted | src/pages/reports.tsx:70 | inserting a new label into a strictly sorted list keeps it strictly sorted |
| ReportsPage.SortLabels | src/pages/reports.tsx:70 | `Object.keys(grouped).sort()`: strictly ascending and a permutation of the keys |
| ReportsPage.SortedIsDistinct | src/pages/reports.tsx:70 | sorted labels have no duplicates |
| ReportsPage.GroupPrefix | src/pages/reports.tsx:61-69 | the grouping of one more movement of a prefix is one more `forEach` step |
| ReportsPage.GroupByMonth | src/pages/reports.tsx:60-69 | the `forEach` loop builds exactly the grouping `Group` defines |
| ReportsPage.LabelsAreMonths | src/pages/reports.tsx:62-70 | the sorted labels are exactly the movements' months, each with a bucket |
| ReportsPage.ChartData | src/pages/reports.tsx:59-86 | labels sorted, without duplicates and exactly the months present; two datasets aligned with them, non-negative, equal to the bucket values, and summing to total income and total expenses |
| ReportsPage.ChartTotals | src/pages/reports.tsx:70-81 | whatever the label order, the datasets sum to the total income and total expenses, and their difference is the sum of all amounts |
| ReportsPage.Usuario | src/pages/reports.tsx:95 | the Usuario cell is undefined without an owner, else the owner's display name |
| ReportsPage.CsvRows | src/pages/reports.tsx:91-96 | one row per movement in order, with concept, amount, date label and Usuario |
| ReportsPage.CsvMontoTotal | src/pages/reports.tsx:93 | the Monto column adds up to the sum of all amounts |
| ReportsPage.DownloadCsv | src/pages/reports.tsx:88-97 | nothing is exported exactly when the list is empty; otherwise the rows, one per movement |
| ReportsPage.ReportsPageState.constructor | src/pages/reports.tsx:33-36 | an empty list, saldo 0, loading, no error |
| ReportsPage.ReportsPageState.HandleLoad | src/pages/reports.tsx:38-56 | movements and saldo from the response; a non-ok answer shows its `error` or the permission message, a failed request its message or the load message; loading ends |
| ReportsApi.ReduceIsSum | src/pages/api/reports.ts:11 | the left `reduce` from an accumulator adds the plain sum of the amounts to it |
| ReportsApi.Saldo | src/pages/api/reports.ts:10-12 | saldo is the sum of all amounts, equal to income minus expenses, and 0 for an empty table |
| ReportsApi.Handle | src/pages/api/reports.ts:7-15 | GET exactly gives the report: all stored rows and their balance; any other verb gives 405 |
| ReportsApi.SaldoMatchesPage | src/pages/api/reports.ts:11 | for the same amounts, the server's saldo equals the movements page's balance |
| ReportsApi.SalaryAndRentScenario | src/__tests__/reports.test.tsx:51-73 | a salary of 2500 and a rent of -800 give a saldo of 1700 |
| ApiAuth.GetServerSession | src/lib/apiAuth.ts:4-15 | the found session, or null when the lookup throws |
| ApiAuth.Response | src/lib/apiAuth.ts:20-34 | 401 "No autorizado", 500 "Error de autenticación", or the handler's own answer |
| ApiAuth.Decide | src/lib/apiAuth.ts:17-36 | 401 exactly when there is no session; otherwise the handler's answer, a 500 for a synchronous throw, and a rejection passed through |
| ApiAuth.ApiRequest.constructor | src/lib/apiAuth.ts:18 | a request starts without a session |
| ApiAuth.WithAuth | src/lib/apiAuth.ts:17-36 | the outcome is `Decide`; the session is attached to the request exactly when one was found; the handler's single call is reached only with a session |
| ApiAuth.NoRoleCheck | src/lib/apiAuth.ts:17-36 | the wrapper looks at no role: sessions differing only in role are treated alike by a role-blind handler |
| ApiAuth.LookupFailureIsUnauthorized | src/lib/apiAuth.ts:11-13 | a throwing lookup ends in 401, not the wrapper's 500 |
| RoleGuard.Decide | finance-manager/src/lib/withAuth.tsx:15-25 | to sign-in exactly without a session; home exactly when a non-empty role list excludes the session's role; authorize otherwise (each both directions) |
| RoleGuard.Redirect | finance-manager/src/lib/withAuth.tsx:16-22 | no session goes to "/auth/signin", a refused role goes to "/", and no redirect is issued exactly when the page is authorized |
| RoleGuard.GuardState.constructor | finance-manager/src/lib/withAuth.tsx:7-12 | loading, not authorized, with the given roles |
| RoleGuard.GuardState.View | finance-manager/src/lib/withAuth.tsx:30-32 | the page is shown exactly when not loading and authorized; loading shows exactly while loading |
| RoleGuard.GuardState.OnSession | finance-manager/src/lib/withAuth.tsx:14-27 | issues the decision's redirect, sets `authorized` only when authorizing, and ends loading |
| RoleGuard.EmptyListAuthorizesEverySession | finance-manager/src/lib/withAuth.tsx:7 | with the default empty list every session is authorized |
| RoleGuard.AdminOnlyScenarios | finance-manager/src/lib/withAuth.tsx:18-24 | with `["ADMIN"]`, "USER" and a missing role go home, "ADMIN" is authorized |
| SessionGuard.Guard | src/lib/withAuth.tsx:8-33 | loading while pending; with no session the redirect screen and a push to "/"; otherwise the page; a push happens exactly on the redirect screen |
| SessionGuard.RoleIndependent | src/lib/withAuth.tsx:11-33 | the role plays no part in the guard's decision |
| SessionGuard.UserSeesAdminPage | src/pages/reports.tsx:147 | the reports page's `["ADMIN"]` list is ignored: a signed-in "USER" is shown the page |
| Layout.Navigation | src/components/Layout.tsx:46-73 | four entries, each current exactly when its link is the path; the last two are admin-only |
| Layout.UserRole | src/components/Layout.tsx:76 | the session's role, or "ADMIN" when missing or empty |
| Layout.FilteredNavigation | src/components/Layout.tsx:79 | an order-preserving part of the entries: all four for an admin, only Dashboard and Movimientos otherwise |
| Layout.KeepFirstTwo | src/components/Layout.tsx:79 | filtering four entries of which only the first two pass keeps exactly those two |
| Layout.FirstCurrentName | src/components/Layout.tsx:184 | `find(item => item.current)?.name`: none exactly when no entry is current, else the first current entry's name |
| Layout.AtMostOneCurrent | src/components/Layout.tsx:46-73 | at most one entry is current |
| Layout.Title | src/components/Layout.tsx:184 | the header reads the current page's name, "Dashboard" for any other path |
| Layout.FirstChar | src/components/Layout.tsx:141 | `charAt(0)` of an optional string: empty exactly when the string is missing or empty |
| Layout.AvatarFallback | src/components/Layout.tsx:141 | one letter: the name's first, else the email's, else "U" |
| Layout.HeaderName | src/components/Layout.tsx:146 | definition: the user's name when truthy, else the email, else empty |
| Layout.AvatarIsHeaderInitial | src/components/Layout.tsx:141-146 | the avatar letter is the first character of the user label shown beside it, and "U" exactly when that label is empty |
| FixUserRole.SessionUserId | src/pages/api/fix-user-role.ts:8-13 | the session's user id when truthy, none otherwise |
| FixUserRole.Report | src/pages/api/fix-user-role.ts:56-62 | `session_user`: id, email, name, and the role or "NOT_IN_SESSION" |
| FixUserRole.Fix | src/pages/api/fix-user-role.ts:5-66 | 400 exactly without a user id; 404 exactly when the row is missing; otherwise the row comes back with role "ADMIN", the table changes only at that row, and the action is "updated_to_admin" exactly when the role was not "ADMIN" |
| FixUserRole.UserTable.constructor | src/pages/api/fix-user-role.ts:16-26 | a table keyed by user id |
| FixUserRole.UserTable.FixRole | src/pages/api/fix-user-role.ts:5-66 | the answer and the new table are exactly `Fix` of the old table; rows stay keyed by id |
| FixUserRole.OnlyOwnRoleChanges | src/pages/api/fix-user-role.ts:36-50 | the table keeps its keys; every other row is untouched, and in the caller's row only the role changes |
| FixUserRole.Idempotent | src/pages/api/fix-user-role.ts:32-50 | a second call reports "no_change", leaves the table alone and returns the same row |
| AuthError.ErrorProp | src/pages/auth/error.tsx:50-56 | the prop is the query's `error` exactly when it is non-empty, else null |
| AuthError.ErrorMessage | src/pages/auth/error.tsx:9-19 | a known key gives its own message, a missing, empty or unknown key the default; always a message of the table |
| AuthError.PropPreservesMessage | src/pages/auth/error.tsx:18-19 | reading the prop or the raw query shows the same message |
| AuthError.KnownKeysAreNotDefault | src/pages/auth/error.tsx:9-14 | the four messages are pairwise different |
| Ledger.Sum | src/pages/movements.tsx:81-83 | definition: `reduce((sum, x) => sum + x, 0)` over the amounts, right to left from 0 |
| Ledger.SumAbs | src/pages/movements.tsx:85-87 | definition: `reduce((sum, x) => sum + Math.abs(x), 0)` |
| Ledger.TotalIncome | src/pages/movements.tsx:81-83 | definition: the sum of the amounts `> 0` |
| Ledger.TotalExpenses | src/pages/movements.tsx:85-87 | definition: the sum of the absolute values of the amounts `< 0` |
| Ledger.Balance | src/pages/movements.tsx:89 | definition: total income minus total expenses |
| Sessions.RoleOf | src/pages/movements.tsx:77 | definition: `session?.user?.role`, absent without a session or a user |
| MovementsPage.Matches | src/pages/movements.tsx:93-95 | definition: the lower-cased term occurs in the lower-cased concept, user name (when present) or email |
| MovementsPage.IsAdmin | src/pages/movements.tsx:78 | definition: a signed-in user whose role is "ADMIN" or absent |
| MovementsPage.MovementsPageState.AddDisabled | src/pages/movements.tsx:109 | definition: the button is disabled while submitting or for a non-admin |
| UsersPage.Matches | src/pages/users.tsx:88-90 | definition: the lower-cased term occurs in the lower-cased name (when present), email or role |
| Layout.IsAdmin | src/components/Layout.tsx:77 | definition: the resolved role is "ADMIN" |
| MovementForm.MissingRequired | src/components/MovementForm.tsx:20 | definition: a blank concept, an empty amount or an empty date |
| MovementForm.PositiveAmount | src/components/MovementForm.tsx:24 | definition: a number, not NaN, greater than 0 |
| MovementForm.InFuture | src/components/MovementForm.tsx:28-30 | definition: a valid date later than `now`; an invalid date compares false |
| MovementsApi.HasAllFields | src/pages/api/movements.ts:17 | definition: concept, amount, date and user id all truthy, so an amount of 0 is missing |
| MovementsApi.NewestFirst | src/pages/api/movements.ts:11 | definition: dates do not increase along the list (`orderBy: { date: "desc" }`) |
| MovementsApi.Storable | src/pages/api/movements.ts:20-27 | definition: the date parses and the user id names a known user, as the store requires |
| FixUserRole.NeedsPromotion | src/pages/api/fix-user-role.ts:36 | definition: the row's role is missing or not "ADMIN" |
| RoleGuard.RoleAllowed | finance-manager/src/lib/withAuth.tsx:18-20 | definition: an empty list, or a present role that the list includes |
| ReportsPage.AddTo | src/pages/reports.tsx:67-68 | definition: a non-negative amount is added to `ingresos`, a negative one's absolute value to `egresos` |
| ReportsPage.Step | src/pages/reports.tsx:66-68 | definition: one `forEach` step, creating the month's bucket first when it is missing |
| ReportsPage.Group | src/pages/reports.tsx:60-69 | definition: the grouping after visiting every movement, first to last |
| ReportsPage.LexLess | src/pages/reports.tsx:70 | definition: the code-unit order `sort()` uses |
| ReportsApi.Reduce | src/pages/api/reports.ts:11 | definition: `reduce((acc, m) => acc + m.amount, acc)`, folding from the left |

## Left out

- Text.ToLower: lower-cases ASCII letters only. JavaScript's `toLowerCase` also maps non-ASCII letters, which the model leaves unchanged.
- Strings are sequences of Dafny characters (Unicode scalar values). UTF-16 code units differ from them for characters outside the basic plane in the sort order, in `charAt(0)` and in the user-edit form's `.length < 2` rule. `trim` is unaffected, since every JavaScript white-space and line-terminator character lies in the basic plane.
- UserEditForm.ValidationError: the length rule counts characters, not UTF-16 code units. A name made of one character outside the basic plane, such as U+1F600, has `.length` 2 and passes in the source, but the model gives it the length message.
- Amounts are exact reals. Floating-point rounding of the sums and `parseFloat` on the server are not modelled; the POST amount is stored as received.
- `Number(...)` on the amount input, `new Date(...)`, `toLocaleString` and `toLocaleDateString` are parameter functions. Their formats are not modelled.
- The POST's `new Date(date)` for an invalid date and a `userId` with no user become one store refusal (`StoreError`, 500). The store's own exception messages are not modelled.
- The catch-all 500 of `/api/fix-user-role` (a database exception) is not modelled. The `createdAt`, `updatedAt` and `timestamp` fields of its answer are not modelled either.
- ReportsApi.AllowedRoles: src/pages/api/reports.ts:17 passes `["ADMIN"]` to `withApiAuth`, imported from src/lib/apiAuth.ts, but that file exports only `withAuth` and `getServerSession`. The wrapper's role check is not modelled and the list is recorded as a constant; no role check is modelled for `/api/reports` or `/api/movements`.
- MovementsApi.SortNewestFirst: the order of rows with equal dates is whatever the database returns. The model fixes only that the result is newest first and a permutation.
- The GET listing returns a bare array, but the movements page reads `data.movements`. This mismatch in the wire format is not modelled: `HandleLoad` takes the already-extracted field.
- `Papa.unparse` (CSV quoting), the Blob and the download link are not modelled. The model stops at the row objects handed to it.
- Chart.js rendering is not modelled. The model stops at the labels and the two datasets.
- React effects, re-rendering, `useMemo`, and the order of asynchronous `fetch` callbacks are not modelled. Each handler runs as one atomic step on its inputs.
- The page guards' router calls are returned as values, not performed.
- SessionGuard.Guard: the loading and redirecting screens are named values; their markup is not modelled.
- The search text box state (`searchTerm`) is a parameter of the filter functions, not a field.
- The sidebar toggles, the sign-out call, the empty-list messages and the table markup are presentation only and are not modelled.
- AuthError.ErrorMessage: the lookup `errors[x]` assumes a plain key. Object prototype keys such as `constructor` and a query `error` given as an array are not modelled.
- ApiAuth.NoRoleCheck: stated for handlers that ignore the role, since the wrapper passes the session on unchanged.
- MovementsApi.MovementStore.Valid: kept as a ghost invariant of the table (known owners, unique ids). The unique-id requirement on `newId` stands in for the database's generated ids.

## Findings

| source | as written | input that shows it | evidently intended | confidence | as-written member | corrected member |
|---|---|---|---|---|---|---|
| src/pages/reports.tsx:147 | `withAuth(ReportsPage, ["ADMIN"])` passes a role list to the guard of src/lib/withAuth.tsx, whose `withAuth` takes only the component, so the list is dropped | a signed-in session whose role is "USER" | the reports page is shown to "ADMIN" sessions only, as the role-list guard does | not executed | SessionGuard.UserSeesAdminPage | RoleGuard.AdminOnlyScenarios |
