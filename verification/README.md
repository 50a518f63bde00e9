# finance-frontend client core, modelled in Dafny

This project models the client side of a personal finance tracker. The tracker is a single-page
web app that talks to a REST backend. The backend parses free text into transactions,
aggregates analytics and stores everything. The client's own logic is modelled here:

- the **session store**: restoring a stored session, login, registration and sign-out, with the
  token and user record mirrored into local storage;
- the **transaction cache**: the client's copy of the transaction and category lists, changed
  only after the server confirms, plus its local filter;
- the **analytics cache**: three slices, each loaded by its own call;
- **request building**: routes, headers, the error message of a failed response, the
  transaction-list query string and the health URL;
- the **sign-in / registration form** validator and its handlers;
- the **transaction list filter** (category, type, case-insensitive search);
- three **UI controllers**: the quick-entry parse/confirm/reject box, the edit modal on the
  Transactions and Dashboard pages, and the theme.

How the model is built:

- Each awaited backend call is one atomic step. Its outcome (`Ok(value)` or `Err(failure)`) is a
  parameter of the method that makes the call.
- Each store keeps a ghost log `calls` of the backend calls it made. This lets a contract say
  "exactly one update, with this id and these fields" or "no call at all".
- Browser local storage is one shared `Storage.LocalStorage` object. The session store, the
  theme controller and the caches' token checks all use it.
- Modules follow the source files:
  - `wrappers.dfy`, `seqs.dfy` and `text.dfy` hold generic support: results, an order-keeping
    filter with its lemmas, and JavaScript string helpers.
  - `domain.dfy` holds the record types.
  - `storage.dfy` is local storage.
  - `api.dfy` is `src/utils/api.ts`.
  - `transactions.dfy` is `src/hooks/useTransactions.ts`.
  - `session.dfy` is `src/hooks/useAuth.ts`.
  - `auth_forms.dfy`, `transaction_list.dfy` and `quick_entry.dfy` are the components of the
    same names.
  - `pages.dfy` covers both page controllers.
  - `analytics.dfy` and `theme.dfy` are the remaining two hooks.
- Methods named as scenarios (for example `Session.RestoreRejected` or
  `Pages.EditAndSubmit`) build fresh objects and run several handlers in a row. Their
  contracts state the state each object ends in.

Behaviour of the code worth knowing when reading the model:

- Sign-out removes the `transactions` storage key along with the token and the user, but
  nothing in the client ever writes that key.
- A successful update replaces every cached record carrying the id, not only the first one.
- Amounts are not checked for sign anywhere in the client.
- Every component that calls `useTransactions()` owns a separate copy of the list. A
  confirmed quick entry is added to the quick-entry box's own copy, which nothing renders,
  so it does not appear in the dashboard's list until that list is reloaded.
- A manual add from the Transactions page sends `now` as the date, not the date chosen in
  the modal, because the add path stamps the current time.
- A response that arrives after its component is gone is not guarded against. The model does
  not model unmounting at all.

## Model

| member | source | states |
|---|---|---|
| Text.Lower | src/components/transactions/TransactionList.tsx:40 | `toLowerCase` keeps the length, maps each upper-case ASCII letter to its lower-case partner (32 code points on), and changes no other character |
| Text.LowerIdempotent | src/components/transactions/TransactionList.tsx:40 | lowering twice is lowering once |
| Text.LowerEqualIff | src/components/transactions/TransactionList.tsx:40 | two strings lower to the same text exactly when they differ at most in the ASCII case of their letters |
| Text.NatToStringRoundTrip | src/utils/api.ts:34 | the decimal text of the HTTP status reads back as the status |
| Text.RemoveFirst | src/utils/api.ts:139 | `replace` with a string pattern cuts the first occurrence out, and leaves a string without one unchanged |
| Storage.Lookup | src/utils/api.ts:8-11 | `getItem` returns the stored value exactly when the key is present, and null otherwise |
| Storage.LocalStorage.SetItem | src/hooks/useAuth.ts:61-62 | `setItem` stores the value under the key and leaves every other key alone |
| Storage.LocalStorage.RemoveItem | src/hooks/useAuth.ts:98-100 | `removeItem` drops the key and leaves every other key alone |
| Domain.TypeName | src/types/index.ts:14 | a type is spelled "income" exactly when it is income, and "expense" exactly when it is expense |
| Api.BaseUrl | src/utils/api.ts:4 | the configured URL when it is truthy, otherwise `http://localhost:3001/api`; never empty |
| Api.ItemPath | src/utils/api.ts:113 | update and delete address the path that starts with `/transactions/` and continues with the id, unchanged |
| Api.ItemPathInjective | src/utils/api.ts:118-119 | distinct ids give distinct item paths |
| Api.RouteOf | src/utils/api.ts:45-135 | exactly the read calls use GET; update is a PUT and delete a DELETE of the item path |
| Api.RequestHeaders | src/utils/api.ts:18-27 | without caller headers: JSON content type, and an Authorization header present iff the token is non-null and non-empty, with value `Bearer <token>`; with caller headers, those replace the whole object |
| Api.FailureMessage | src/utils/api.ts:32-34 | the body's non-empty `error` field; else the status text for an unparseable body; else `HTTP <status>: <statusText>`; never empty |
| Api.ResponseFailure | src/utils/api.ts:32-35 | a response raises iff it is not OK, and then always an `Error` with a non-empty message |
| Api.Included | src/utils/api.ts:75-82 | as many query pairs as filter entries whose value is not undefined |
| Api.IncludedNil | src/utils/api.ts:75-82 | no entries give no pairs |
| Api.IncludedCons | src/utils/api.ts:77-81 | entry by entry, in entry order: a defined entry contributes `(key, value.toString())` ahead of the later entries' pairs, an undefined one contributes nothing |
| Api.IncludedMembership | src/utils/api.ts:77-81 | every defined entry's pair is sent, and every pair sent is some defined entry's `(key, value.toString())` |
| Api.IncludedKeepsFalsyValues | src/utils/api.ts:78-79 | an entry whose value is the empty string or 0 is still sent, as the pair `(key, "")` or `(key, "0")` |
| Api.QueryText | src/utils/api.ts:83 | the query text is empty exactly when there are no pairs |
| Api.ListPath | src/utils/api.ts:83-84 | exactly `/transactions` with no included entry, otherwise `/transactions?` plus the query |
| Api.BuildListPath | src/utils/api.ts:67-85 | the `forEach` loop builds the path `ListPath` describes; the path has a `?` iff some filter entry is defined |
| Api.HealthUrl | src/utils/api.ts:138-139 | as written: the base URL with its first `/api` (anywhere) removed, plus `/health` |
| Api.HealthUrlCutsHost | src/utils/api.ts:138-139 | on `https://api.example.com/api` the written health URL is `https:/.example.com/api/health` |
| Api.HealthUrlFixed | src/utils/api.ts:138-139 | intended: a trailing `/api` segment is replaced by `/health`; any other base URL just gets `/health` appended |
| Api.HealthUrlDefault | src/utils/api.ts:138-139 | on the default base URL the written and the intended URLs agree: `http://localhost:3001/health` |
| TransactionCache.CategoryNames | src/hooks/useTransactions.ts:51 | the names of the server's categories, one per record, in the server's order |
| TransactionCache.ReplaceById | src/hooks/useTransactions.ts:117-126 | an update keeps the list's length |
| TransactionCache.ReplaceByIdAt | src/hooks/useTransactions.ts:117-126 | position by position, a record with the id becomes the server's record and every other record stays in place |
| TransactionCache.ReplaceByIdAbsent | src/hooks/useTransactions.ts:117-126 | updating an id the list does not hold changes nothing |
| TransactionCache.ReplaceByIdIdempotent | src/hooks/useTransactions.ts:117-126 | applying the same answer twice is applying it once |
| TransactionCache.RemoveById | src/hooks/useTransactions.ts:141 | a delete keeps only records of the list that have another id |
| TransactionCache.RemoveByIdKeepsOthers | src/hooks/useTransactions.ts:141 | after a delete: an order-keeping subsequence, exactly the records with another id, as many as there were |
| TransactionCache.RemoveByIdAbsent | src/hooks/useTransactions.ts:141 | deleting an absent id changes nothing |
| TransactionCache.RemoveByIdIdempotent | src/hooks/useTransactions.ts:141 | deleting the same id twice leaves what deleting it once left, whether or not the list held it |
| TransactionCache.LocalFiltered | src/hooks/useTransactions.ts:150-166 | every record kept by `getFilteredTransactions` is in the list and passes the filter |
| TransactionCache.LocalFilteredSpec | src/hooks/useTransactions.ts:155-165 | the filter keeps exactly the passing records, in order, each as often as it occurs (an order-keeping subsequence, membership iff passing, and length equal to the number of passing records) |
| TransactionCache.LocalFilteredUnconstrained | src/hooks/useTransactions.ts:156-158 | with no category, no type and no range, every record is returned |
| TransactionCache.LocalFilterRangeInclusive | src/hooks/useTransactions.ts:158-162 | both ends of the date range are included |
| TransactionCache.TransactionStore.constructor | src/hooks/useTransactions.ts:19-21 | no transactions, not loading, the ten default categories |
| TransactionCache.TransactionStore.LoadTransactions | src/hooks/useTransactions.ts:24-45 | one list call with the filters; on success a full replace by the server's list, on failure the list is kept; loading ends false |
| TransactionCache.TransactionStore.LoadCategories | src/hooks/useTransactions.ts:48-56 | one categories call; on success the names in the server's order, on failure the previous value |
| TransactionCache.TransactionStore.InitialLoad | src/hooks/useTransactions.ts:59-65 | with a stored token, an unfiltered list load then a categories load; without one, no call and no change |
| TransactionCache.TransactionStore.RefreshTransactions | src/hooks/useTransactions.ts:168-170 | exactly an unfiltered list load |
| TransactionCache.TransactionStore.ParseTransaction | src/hooks/useTransactions.ts:67-78 | one parse call with the input; the proposal or the failure is handed back and the list is untouched |
| TransactionCache.TransactionStore.AddTransaction | src/hooks/useTransactions.ts:80-103 | one create call with the proposal stamped with the current time; on success the server's record is prepended, on failure the list is kept and the failure re-raised |
| TransactionCache.TransactionStore.UpdateTransaction | src/hooks/useTransactions.ts:105-133 | one update call; on success the records with the id are replaced in place, on failure the list is kept and the failure re-raised |
| TransactionCache.TransactionStore.DeleteTransaction | src/hooks/useTransactions.ts:135-148 | one delete call; on success the records with the id are removed, on failure the list is kept and the failure re-raised |
| TransactionCache.CategoriesSurviveLaterFailure | src/hooks/useTransactions.ts:48-56 | after a successful category load, a failed one leaves that load's names, not the default list |
| Session.UserJson | src/hooks/useAuth.ts:62 | the serialised user is a non-empty JSON object text |
| Session.WithSession | src/hooks/useAuth.ts:61-62 | after login the token and the serialised user are stored; every other key is unchanged |
| Session.WithoutCredentials | src/hooks/useAuth.ts:43-44 | a failed restore removes exactly the token and the user |
| Session.WithoutSession | src/hooks/useAuth.ts:98-100 | sign-out removes exactly the token, the user and the cached transactions; the theme and every other key stay |
| Session.RestorableAfterLogin | src/hooks/useAuth.ts:32-62 | after a login the next start-up tries a restore iff the server's token is non-empty |
| Session.SignOutKeepsTheme | src/hooks/useAuth.ts:97-100 | after sign-out nothing is restorable, and the stored theme is what it was |
| Session.SessionStore.constructor | src/hooks/useAuth.ts:25-27 | no user, loading, no error |
| Session.SessionStore.CheckAuth | src/hooks/useAuth.ts:31-49 | a `getMe` call only when both a token and a user are stored; success adopts the user, failure clears both keys and the user; otherwise nothing changes; loading ends false |
| Session.SessionStore.Authenticate | src/hooks/useAuth.ts:54-88 | one call; on success the user is set and token and user stored; on failure the user and storage are kept and the error is the failure's message or the fallback; the failure is re-raised; loading ends false |
| Session.SessionStore.Login | src/hooks/useAuth.ts:54-70 | as above with a login call and the fallback "Login failed" |
| Session.SessionStore.Register | src/hooks/useAuth.ts:72-88 | as above with a register call and the fallback "Registration failed" |
| Session.SessionStore.SignOut | src/hooks/useAuth.ts:90-102 | one logout call whose failure is swallowed; the user is cleared and token, user and transactions keys removed in every case |
| Session.RestoreRejected | src/hooks/useAuth.ts:31-49 | a start-up whose `getMe` fails ends signed out and not loading, with nothing restorable stored, no key added or changed, and every key other than the token and the user kept with its value |
| Session.SignInThenOut | src/hooks/useAuth.ts:54-102 | login then sign-out with a failing logout call leaves no user and nothing restorable, and the theme untouched |
| AuthForms.WithField | src/components/auth/AuthForms.tsx:60 | the edited field takes the value and every other field keeps its value |
| AuthForms.LooksLikeEmailInContext | src/components/auth/AuthForms.tsx:23 | the address test is an unanchored search: text around a matching address still matches |
| AuthForms.ShortestEmail | src/components/auth/AuthForms.tsx:23 | `a@b.c` passes the address test |
| AuthForms.EmailError | src/components/auth/AuthForms.tsx:21-25 | no email message iff the address test passes; "Email is required" iff the email is empty |
| AuthForms.ValidationErrors | src/components/auth/AuthForms.tsx:19-42 | a field has an entry iff its check fails, with that check's one message, which is never empty |
| AuthForms.ValidIffAcceptable | src/components/auth/AuthForms.tsx:19-42 | validation passes iff the address matches and a password is given, and for registration the password has six characters, a name is given and the confirmation equals the password |
| AuthForms.LoginChecksLess | src/components/auth/AuthForms.tsx:26-40 | in sign-in mode the name and confirmation are never checked, and the password only for presence |
| AuthForms.RegisterChecksMore | src/components/auth/AuthForms.tsx:26-39 | in registration mode a password shorter than six is rejected, and a non-empty differing confirmation gets "Passwords do not match" |
| AuthForms.AuthForm.constructor | src/components/auth/AuthForms.tsx:10-18 | sign-in mode, empty fields, no errors |
| AuthForms.AuthForm.Validate | src/components/auth/AuthForms.tsx:19-43 | replaces the errors with the validation errors, and returns true iff the form is acceptable |
| AuthForms.AuthForm.Submit | src/components/auth/AuthForms.tsx:44-58 | an invalid form makes no call and leaves the session's user, error, loading flag and storage as they were; a valid one makes exactly one login or register call with its values, ends not loading, and reports success iff that call succeeded; on success the user, the stored session and a cleared error, on failure the old user and storage and the call's error message (or the mode's fallback) |
| AuthForms.AuthForm.Edit | src/components/auth/AuthForms.tsx:59-64 | only the edited field changes; its shown error is blanked, no error entry is added or removed, and other errors are kept |
| AuthForms.AuthForm.ToggleMode | src/components/auth/AuthForms.tsx:65-74 | the mode flips, errors are cleared, the email is kept and the other fields are blanked |
| AuthForms.SubmitEmptyForm | src/components/auth/AuthForms.tsx:44-48 | submitting a fresh form reports "Email is required", signs nobody in and reports no success |
| TransactionList.FilteredRows | src/components/transactions/TransactionList.tsx:37-44 | every shown row is an input row that passes the filter |
| TransactionList.FilteredRowsSpec | src/components/transactions/TransactionList.tsx:37-44 | the shown rows are exactly the passing input rows, each as often as it occurs (an order-keeping subsequence, membership iff shown, and length equal to the number of shown rows) |
| TransactionList.NoFilterShowsAll | src/components/transactions/TransactionList.tsx:24-44 | with the initial empty filter every row is shown |
| TransactionList.SelectionsMatchExactly | src/components/transactions/TransactionList.tsx:38-39 | a category or type choice keeps only exact matches; a type value naming neither type hides every row |
| TransactionList.SearchIgnoresCase | src/components/transactions/TransactionList.tsx:40-42 | a search shows the same rows as its lower-cased form |
| TransactionList.SearchUpToCaseSameRows | src/components/transactions/TransactionList.tsx:40-42 | two searches that differ only in letter case ("COFFEE", "coffee") show the same rows |
| TransactionList.EmptyStateIff | src/components/transactions/TransactionList.tsx:95 | the empty state shows iff no input row passes the filter |
| TransactionList.CategoryOptions | src/components/transactions/TransactionList.tsx:46-49 | "All Categories" with value '' first, then one option per category in order |
| TransactionList.TypeOptionsCoverTypes | src/components/transactions/TransactionList.tsx:51-55 | every transaction type is offered, and choosing it keeps exactly the rows of that type |
| TransactionList.SignPrefix | src/components/transactions/TransactionList.tsx:138 | "+" iff income, "-" iff expense |
| QuickEntry.QuickEntryBox.constructor | src/components/dashboard/QuickEntry.tsx:10-12 | empty input, not parsing, no proposal |
| QuickEntry.QuickEntryBox.SetInput | src/components/dashboard/QuickEntry.tsx:63 | the input takes the typed value |
| QuickEntry.QuickEntryBox.HandleParse | src/components/dashboard/QuickEntry.tsx:15-27 | blank input: no call and no change; otherwise one parse call whose proposal replaces the shown one on success, a failure keeps the previous proposal, and parsing ends false; the store's loading flag is untouched on blank input and false after the call |
| QuickEntry.QuickEntryBox.KeyPress | src/components/dashboard/QuickEntry.tsx:64 | only Enter while not parsing on non-blank input makes a parse call, with the proposal then set as `handleParse` sets it; every other key press, and Enter on blank input, changes nothing; the store's rows are never touched; its loading flag is false after a call and untouched otherwise |
| QuickEntry.QuickEntryBox.ClickParse | src/components/dashboard/QuickEntry.tsx:66-73 | a click on the disabled button (blank input or a parse running) changes nothing; otherwise one parse call as `handleParse` makes it |
| QuickEntry.ButtonAgreesWithEnter | src/components/dashboard/QuickEntry.tsx:64-68 | the button is enabled exactly when Enter would start a parse on non-blank input |
| QuickEntry.QuickEntryBox.HandleConfirm | src/components/dashboard/QuickEntry.tsx:29-35 | with a proposal: one add with exactly that proposal, then input and proposal cleared and the store not loading, whatever the outcome; without one: nothing, the loading flag included |
| QuickEntry.QuickEntryBox.HandleReject | src/components/dashboard/QuickEntry.tsx:37-39 | the proposal is dropped and the input kept |
| QuickEntry.ParseAndConfirm | src/components/dashboard/QuickEntry.tsx:13-35 | parse then confirm leaves the box's own hook instance, which started empty, holding exactly the created record, and empties the box |
| QuickEntry.QuickEntryNotOnDashboard | src/components/dashboard/QuickEntry.tsx:13 | with the dashboard's and the box's hook instances both loaded with the same rows, a confirmed quick entry is prepended to the box's list only; the dashboard's list keeps the loaded rows |
| QuickEntry.FailedParseKeepsProposal | src/components/dashboard/QuickEntry.tsx:15-39 | a failed parse keeps the earlier proposal; rejecting it keeps the typed text |
| Pages.ManualProposal | src/components/pages/Transactions.tsx:32-35 | the modal's fields become a proposal with confidence 1.0 |
| Pages.ManualAddIgnoresDate | src/components/pages/Transactions.tsx:31-36 | the date chosen in the modal never reaches the create call |
| Pages.TransactionsPage.constructor | src/components/pages/Transactions.tsx:15-16 | nothing being edited, modal closed |
| Pages.TransactionsPage.HandleAdd | src/components/pages/Transactions.tsx:18-21 | the modal opens with nothing being edited |
| Pages.TransactionsPage.HandleEdit | src/components/pages/Transactions.tsx:23-26 | the transaction is recorded as being edited and the modal opens |
| Pages.TransactionsPage.HandleSave | src/components/pages/Transactions.tsx:28-38 | while editing, one update of that id with the data and no add; otherwise one add of the data with confidence 1.0; the edited transaction is cleared and the store ends not loading |
| Pages.TransactionsPage.HandleDelete | src/components/pages/Transactions.tsx:40-44 | a delete call only when confirmed, after which the store is not loading; otherwise no call and no change, the loading flag included |
| Pages.TransactionsPage.Close | src/components/pages/Transactions.tsx:67-70 | modal closed and nothing being edited |
| Pages.DashboardPage.constructor | src/components/pages/Dashboard.tsx:14-15 | nothing being edited, modal closed |
| Pages.DashboardPage.HandleEdit | src/components/pages/Dashboard.tsx:17-20 | the transaction is recorded as being edited and the modal opens |
| Pages.DashboardPage.HandleSave | src/components/pages/Dashboard.tsx:22-27 | while editing, one update of that id; otherwise no call and no change to the list or the loading flag; the edited transaction is cleared |
| Pages.DashboardPage.HandleDelete | src/components/pages/Dashboard.tsx:29-33 | a delete call only when confirmed, after which the store is not loading; otherwise no call and no change |
| Pages.DashboardPage.Close | src/components/pages/Dashboard.tsx:65-68 | modal closed and nothing being edited |
| Pages.EditAndSubmit | src/components/pages/Transactions.tsx:23-38 | editing a row and submitting replaces that row in place, keeps every row with another id, and closes the modal |
| Pages.DeclinedDeleteKeepsRows | src/components/pages/Transactions.tsx:40-44 | declining the confirmation leaves the list unchanged on either page, each page with its own hook instance |
| Analytics.RequestedPeriod | src/hooks/useAnalytics.ts:27 | the given period, or "month" when absent |
| Analytics.RequestedDays | src/hooks/useAnalytics.ts:37 | the given day count (0 included), or 30 when absent |
| Analytics.DefaultAnalyticsRoutes | src/utils/api.ts:128-132 | without options the batch requests `period=month` and `days=30` |
| Analytics.AnalyticsStore.constructor | src/hooks/useAnalytics.ts:6-14 | zero summary, no category or trend data, not loading |
| Analytics.AnalyticsStore.LoadSummary | src/hooks/useAnalytics.ts:17-24 | one summary call; only the summary changes, and only on success |
| Analytics.AnalyticsStore.LoadCategoryData | src/hooks/useAnalytics.ts:27-34 | one breakdown call for the period (default month); only the breakdown changes, and only on success |
| Analytics.AnalyticsStore.LoadTrendData | src/hooks/useAnalytics.ts:37-44 | one trends call for the days (default 30); only the trend changes, and only on success |
| Analytics.AnalyticsStore.LoadAnalytics | src/hooks/useAnalytics.ts:47-63 | the three calls with the options' values or defaults; each slice settles on its own outcome; loading ends false and the batch never fails |
| Analytics.AnalyticsStore.InitialLoad | src/hooks/useAnalytics.ts:66-71 | the default batch only when a token is stored; otherwise no call and no change |
| Analytics.AnalyticsStore.RefreshAnalytics | src/hooks/useAnalytics.ts:74-79 | exactly the batch with the same options |
| Analytics.FailedSliceKeepsPrevious | src/hooks/useAnalytics.ts:17-63 | a refresh whose breakdown fails keeps the earlier breakdown while the other slices update |
| Analytics.SignedOutShowsZeros | src/hooks/useAnalytics.ts:6-71 | with no token stored the initial zero slices stay |
| Theme.InitialTheme | src/hooks/useTheme.ts:21-24 | the stored theme when non-empty, otherwise "system"; never empty |
| Theme.ResolveDark | src/hooks/useTheme.ts:31-38 | "system" follows the system preference; otherwise dark iff the theme is "dark", so any other string is light |
| Theme.ThemeController.constructor | src/hooks/useTheme.ts:21-41 | the initial theme from storage, then the effect: dark flag resolved, class equal to it, theme stored |
| Theme.ThemeController.Apply | src/hooks/useTheme.ts:28-41 | the dark flag is resolved, the document class equals it, and the theme is stored |
| Theme.ThemeController.SetTheme | src/hooks/useTheme.ts:21-41 | a new theme is applied and stored; setting the current theme changes nothing else |
| Theme.ChoiceSurvivesRestart | src/hooks/useTheme.ts:21-41 | a chosen theme is restored on the next start (the empty string reads back as "system"), resolved against the then-current system preference |
| Theme.ThemeSurvivesSignOut | src/hooks/useTheme.ts:21-24 | signing in and out does not change the theme the next start shows |

## Left out

- `fetch`, `response.json()` and the backend's behaviour are not modelled. Each call's outcome
  is a parameter, and a response body is given already decoded.
- A JSON error body that is not an object (for example `null`) is not modelled. The model has
  only an object body with an optional `error` field, or an unparseable body.
- `URLSearchParams` percent-encoding is the parameter `encode` of `Api.QueryText`,
  `Api.ListPath` and `Api.BuildListPath`. It is a library routine.
- `Text.Lower`: lowers ASCII letters only. JavaScript's `toLowerCase` also lowers the rest of
  Unicode, which needs the Unicode tables.
- `Session.UserJson`: no JSON string escaping, and a `null` picture is written like an absent
  one. Nothing in the client reads the stored user back.
- String lengths count Unicode scalar values, not UTF-16 code units. The six-character password
  rule can differ for characters outside the Basic Multilingual Plane.
- Amounts are integers (cents) and the parser's confidence is a real number. Floating-point
  arithmetic, currency and percentage formatting, and `parseFloat` in the modal are left out.
- Dates are opaque ordered integers. `new Date`, `toISOString`, date-fns formatting and the
  modal's default date are left out. The current time is the parameter `now` of
  `TransactionCache.TransactionStore.AddTransaction`.
- `userId`, `createdAt`, `updatedAt` and a transaction's optional `confidence` are not modelled.
  The client only carries them.
- Concurrency is not modelled: overlapping requests, responses arriving after unmount, and
  `handleConfirm` not awaiting the add. `loadAnalytics`'s three parallel requests are modelled
  in issue order, and each settles its own slice.
- Browser APIs become values. `window.matchMedia` is the boolean `systemDark`, `confirm()` is the
  boolean `confirmed`, and `classList` is the field `darkClass`. A change of the system
  preference without a theme change is not observed, as in the code.
- Show-password toggling, the `loading`-disabled inputs, and rendering are left out. This covers
  JSX, charts, the summary cards, recent transactions, the layout components and the
  auth page.
- Settings export and import (Blob, FileReader, `alert`) are left out as browser I/O. Firebase
  configuration is left out as a foreign library.
- `authAPI.getStatus` and `analyticsAPI.getMonthlyComparison` are not modelled. No
  component calls them.
- The modal's own form state is not modelled, including its default category
  (`categories[0] || ''`). Its submit is a save followed by a close, modelled as two steps.

## Findings

| source | as written | input that shows it | evidently intended | confidence | as-written member | corrected member |
|---|---|---|---|---|---|---|
| src/utils/api.ts:138-139 | the health URL is the base URL with its first `/api` removed, wherever it occurs | base URL `https://api.example.com/api` gives `https:/.example.com/api/health` | drop the trailing `/api` path segment: `https://api.example.com/health` | not executed | Api.HealthUrlCutsHost | Api.HealthUrlFixed |
