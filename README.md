# arterp front end: a Dafny model of its data hooks, UI state and request builders

This project models the client-side logic of the arterp ERP front end. The
front end is a Next.js / React application over a REST back end. It manages
customers, business processes, finance, resources, documents and risk
warnings. The model covers:

- **Data hooks** (`useCustomers`, `useRiskWarnings`). Each is a class whose
  `seq` fields hold the cached list, `loading`, `error` and the toasts shown
  so far. The network is a parameter: an object of function values answering
  each endpoint with a value or a rejection.
- **UI state machines**:
  - the two `useTable` hooks;
  - the two `useConfirm` hooks (pending promises are tokens with a record of
    how each was settled);
  - the auth slice and its storage key;
  - the `useAuth` redirect decision;
  - the risk-warning list's dialog state;
  - the document upload dialog, with the `FormData` it builds.
- **Forms**:
  - the antd forms under `app/components/business` (required rules, the
    records they submit, the cost field's currency formatter and parser);
  - the four "new" pages (yup schemas or `Controller` rules, default values,
    payloads, and what a submission leads to).
- **Request builders** of the finance, resource, customer and document
  endpoints. Each URL is a template string or grows with `+=`. Every URL comes
  with the way a server reads it back (split at `?`, `&` and `=`), so the
  model can say which parameters arrive. The resource client's `Resource`
  union (app/api/resourceApi.ts:3-126) is the datatype `ResourceApi.Resource`:
  five variants, each carrying the shared `BaseResource` fields.

JavaScript's own semantics the code relies on are modelled once, in `Js`:
- plain values (objects as maps, NaN included);
- truthiness;
- the `\s` class;
- integer-to-text conversion and `parseInt`.

Query strings are modelled in `Query`: joined, split and looked up.

Each module carries doc comments. Every method that changes state states its
whole new state against a function of the old one. Lemmas state the
properties the code promises, such as:
- round trips (read back what a builder wrote; parse a formatted amount);
- list invariants (replace by id keeps length and order; delete keeps the
  others in order);
- idempotence;
- the exact error set of a fresh form.


## Model

| member | source | states |
|---|---|---|
| CustomersHook.SourceFor | hooks/useCustomers.ts:19-28 | By type whenever a type is given, with or without a status; by status only when just a status is given; the whole list otherwise. |
| CustomersHook.Shown | hooks/useCustomers.ts:19-30 | The fetched list is shown as is, except that with both filters only the customers with that status are kept, in order. |
| CustomersHook.ReplaceById | hooks/useCustomers.ts:85 | Same length; every element whose id matches becomes the new customer, and every other element stays where it was. |
| CustomersHook.RemoveById | hooks/useCustomers.ts:107 | No element with that id is left; every other customer keeps its multiplicity; the result is a subsequence of the list (order kept). |
| CustomersHook.UseCustomers.constructor | hooks/useCustomers.ts:6-10 | Empty list, no overview, not loading, no error, no toast; the initial filters are stored. |
| CustomersHook.UseCustomers.FetchCustomers | hooks/useCustomers.ts:13-41 | Asks the endpoint `SourceFor` names. On success the list becomes `Shown(...)` and the error is cleared. On failure the list is kept, the error is 'Failed to fetch customers' and one error toast is added. `loading` ends false. |
| CustomersHook.UseCustomers.FetchOverview | hooks/useCustomers.ts:43-57 | On success the overview is replaced; on failure it is kept and an error toast is added. List and error are untouched; `loading` ends false. |
| CustomersHook.UseCustomers.Mount | hooks/useCustomers.ts:178-181 | The mount effect fetches with the initial filters and then the overview. A successful fetch shows the list and clears `error`; a failed one keeps the list and sets `error`. The overview is replaced or kept. The notices gain the fetch's error toast when it fails, then the overview's when that fails, and nothing else. |
| CustomersHook.UseCustomers.CreateCustomer | hooks/useCustomers.ts:59-79 | On success the created customer is appended at the end, with a success toast. On failure the same rejection is returned and the list is unchanged. `loading` ends false either way. |
| CustomersHook.UseCustomers.ApplyReplacement | hooks/useCustomers.ts:84-100 | The shared step of the three updates: on success `ReplaceById` plus a success toast; on failure the list is kept and an error toast is added. |
| CustomersHook.UseCustomers.UpdateCustomer | hooks/useCustomers.ts:81-101 | Returns the server's answer. On success the list is `ReplaceById(old, id, answer)`; on failure it is unchanged. Error and overview are kept, and `loading` ends false. |
| CustomersHook.UseCustomers.UpdateCustomerRiskLevel | hooks/useCustomers.ts:124-144 | Same contract as the update, for the risk-level endpoint and its toasts. |
| CustomersHook.UseCustomers.UpdateCustomerScores | hooks/useCustomers.ts:146-176 | Same contract as the update, for the scores endpoint with its three optional scores. |
| CustomersHook.UseCustomers.DeleteCustomer | hooks/useCustomers.ts:103-122 | On success the list is `RemoveById(old, id)`: no customer with that id, the others in order. On failure the rejection is returned and the list is unchanged. |
| CustomersHook.ReplaceAbsentId | hooks/useCustomers.ts:85 | Replacing an id no cached customer has changes nothing. |
| CustomersHook.RemoveAbsentId | hooks/useCustomers.ts:107 | Deleting an id no cached customer has changes nothing (by induction on the list). |
| RiskWarningsHook.SourceFor | hooks/useRiskWarnings.ts:12-22 | By type (with the status) when a type is given, by status otherwise; the status defaults to ACTIVE. |
| RiskWarningsHook.ReplaceById | hooks/useRiskWarnings.ts:63 | Same length; exactly the matching elements are replaced, the rest kept in place. |
| RiskWarningsHook.RemoveById | hooks/useRiskWarnings.ts:85 | No element with that id remains; the others keep their multiplicity and order. |
| RiskWarningsHook.UseRiskWarnings.constructor | hooks/useRiskWarnings.ts:6-10 | Empty, idle, no error; the initial status defaults to ACTIVE. |
| RiskWarningsHook.UseRiskWarnings.FetchWarnings | hooks/useRiskWarnings.ts:12-35 | On success the list is the endpoint's answer; on failure it is kept, the error is 'Failed to fetch risk warnings' and an error toast is added. `loading` ends false. |
| RiskWarningsHook.UseRiskWarnings.Refresh | hooks/useRiskWarnings.ts:124-126 | The mount effect: a fetch with the hook's initial type and status. Success shows the answer, clears `error` and adds no notice; failure keeps the list, sets `error` and adds the 'Failed to fetch risk warnings' toast. |
| RiskWarningsHook.UseRiskWarnings.CreateWarning | hooks/useRiskWarnings.ts:37-57 | On success the new warning is appended; on failure the rejection is returned and the list kept. `loading` ends false. |
| RiskWarningsHook.UseRiskWarnings.ApplyReplacement | hooks/useRiskWarnings.ts:62-78 | The shared step of update and resolve: on success `ReplaceById` plus a success toast; on failure the list is kept and an error toast is added. |
| RiskWarningsHook.UseRiskWarnings.UpdateWarning | hooks/useRiskWarnings.ts:59-79 | On success the list is `ReplaceById(old, id, answer)`; on failure it is unchanged. The toasts are stated. |
| RiskWarningsHook.UseRiskWarnings.ResolveWarning | hooks/useRiskWarnings.ts:102-122 | As the update, with the resolve endpoint's answer. |
| RiskWarningsHook.UseRiskWarnings.DeleteWarning | hooks/useRiskWarnings.ts:81-100 | On success the list is `RemoveById(old, id)`; on failure the rejection is returned and the list is unchanged. |
| RiskWarningsHook.ResolvedStaysInActiveList | hooks/useRiskWarnings.ts:106 | Resolving keeps the warning in the cached list, now with a non-ACTIVE status, even though the list was fetched for ACTIVE. |
| AppTable.SearchIdempotent | app/hooks/useTable.ts:23-26 | The same search applied twice is the same as applying it once. |
| AppTable.SearchKeepsNewPageSize | app/hooks/useTable.ts:19-26 | A search after a pagination change goes back to page 0 and keeps the new page size. |
| AppTable.UseTable.constructor | app/hooks/useTable.ts:9-17 | Page size and page come from the options, defaulting to 10 and 0; empty query, not loading, no rows. |
| AppTable.UseTable.HandlePaginationModelChange | app/hooks/useTable.ts:19-21 | The model is replaced as a whole; the other fields are kept. |
| AppTable.UseTable.HandleSearchChange | app/hooks/useTable.ts:23-26 | The query is stored and the page goes back to 0, keeping the page size. |
| AppTable.UseTable.SetLoading | app/hooks/useTable.ts:16 | Only `loading` changes. |
| AppTable.UseTable.SetTotalRows | app/hooks/useTable.ts:17 | Only `totalRows` changes. |
| Table.UseTable.constructor | hooks/useTable.ts:4-11 | Page 0 of size 10, empty query, not loading, no rows. |
| Table.UseTable.HandlePaginationModelChange | hooks/useTable.ts:13-15 | The model is replaced; nothing else changes. |
| Table.UseTable.HandleSearchChange | hooks/useTable.ts:17-20 | The query is stored and the page goes back to 0, keeping the current page size. |
| Table.UseTable.SetLoading | hooks/useTable.ts:10 | Only `loading` changes. |
| Table.UseTable.SetTotalRows | hooks/useTable.ts:11 | Only `totalRows` changes. |
| Table.PageSizeThenSearch | hooks/useTable.ts:13-20 | Calls run one after another: a page-size change then a search leaves page 0 with the new size. |
| AppConfirm.SettledStays | app/hooks/useConfirm.ts:39-47 | Once a promise has settled, no later `confirm` or `handleClose` changes its value (induction over the calls). |
| AppConfirm.OrphanNeverSettles | app/hooks/useConfirm.ts:23-47 | A pending promise whose resolver was overwritten never settles, whatever calls follow (induction). |
| AppConfirm.SecondConfirmOrphansFirst | app/hooks/useConfirm.ts:23-47 | Two `confirm` calls before a close: the close settles only the second, and the first stays pending forever. |
| AppConfirm.UseConfirm.constructor | app/hooks/useConfirm.ts:16-21 | Closed, empty title and message, no resolver, nothing settled. |
| AppConfirm.UseConfirm.Confirm | app/hooks/useConfirm.ts:23-37 | Returns a fresh pending promise. The dialog opens with the given texts and that promise's resolver; nothing settles. |
| AppConfirm.UseConfirm.HandleClose | app/hooks/useConfirm.ts:39-47 | Closes and keeps the texts. The stored resolver, if any, settles its promise with the value unless it has settled already; without one nothing settles. |
| AppConfirm.ConfirmThenClose | app/hooks/useConfirm.ts:23-47 | `confirm` then `handleClose(v)` settles the returned promise with `v` and closes the dialog. |
| Confirm.CancelLabel | hooks/useConfirm.ts:64 | The given cancel label unless it is missing or empty, else 'Cancel'; never empty. |
| Confirm.ConfirmLabel | hooks/useConfirm.ts:71 | The given confirm label unless it is missing or empty, else 'Confirm'; never empty. |
| Confirm.FirstAnswerWins | hooks/useConfirm.ts:36-44 | The resolver survives closing, so a second answer reaches the same promise, but the first answer's value stays. |
| Confirm.UseConfirm.constructor | hooks/useConfirm.ts:21-26 | Closed, empty texts, no resolver. |
| Confirm.UseConfirm.Confirm | hooks/useConfirm.ts:28-34 | Opens with the given props and stores a fresh pending promise's resolver. |
| Confirm.UseConfirm.HandleConfirm | hooks/useConfirm.ts:41-44 | Closes, keeps props and resolver, and settles the stored promise with `true` unless it has settled. |
| Confirm.UseConfirm.HandleClose | hooks/useConfirm.ts:36-49 | Closes, keeps props and resolver, and settles the stored promise with `false` unless it has settled. |
| Confirm.ConfirmThenDismiss | hooks/useConfirm.ts:28-44 | Confirm, then the confirm button, then a cancel: the promise holds `true` and the dialog is closed. |
| AuthSlice.Initial | app/store/authSlice.ts:14-22 | Signed out with no user. The token is the stored one exactly when running in a browser and the key is present. |
| AuthSlice.LogoutIdempotent | app/store/authSlice.ts:42-51 | Logging out twice is logging out once. |
| AuthSlice.LogoutUndoesSetCredentials | app/store/authSlice.ts:28-51 | `logout` after `setCredentials` gives the same state and storage as `logout` alone. |
| AuthSlice.ReloadFindsTokenButNotSession | app/store/authSlice.ts:14-39 | After signing in, a fresh store over the same storage has the token but is not authenticated. |
| AuthSlice.AuthStore.constructor | app/store/authSlice.ts:14-22 | The store starts from `initialState` over the storage found. |
| AuthSlice.AuthStore.SetCredentials | app/store/authSlice.ts:28-41 | The token is set and the store is authenticated. A non-empty token is decoded into the user and stored; an empty token leaves user and storage alone. If decoding throws, nothing changes. |
| AuthSlice.AuthStore.Logout | app/store/authSlice.ts:42-51 | Token, user and flag are reset and the storage key is removed; every other storage entry is kept. |
| UseAuth.Redirect | app/hooks/useAuth.ts:10-16 | Login exactly when auth is required and missing; dashboard exactly when auth is not required but present; nothing exactly when the two agree. |
| UseAuth.Guard | app/hooks/useAuth.ts:6-18 | `requireAuth` defaults to true; returns the session flag and the redirect for it. |
| UseAuth.RedirectSettles | app/hooks/useAuth.ts:10-16 | For one visitor, the two settings of `requireAuth` never both redirect: whoever a guarded page sends to the login page an unguarded page lets stay, and the other way round. It says nothing about which pages carry which setting. |
| RiskWarningList.Actions | components/risk/RiskWarningList.tsx:143-202 | Resolve and Delete are offered exactly for ACTIVE warnings, View Resolution exactly for RESOLVED ones, and an IGNORED warning has no actions. |
| RiskWarningList.LevelBadge | components/risk/RiskWarningList.tsx:60-68 | Every level has a non-empty badge colour. |
| RiskWarningList.StatusBadge | components/risk/RiskWarningList.tsx:70-77 | Every status has a non-empty badge colour. |
| RiskWarningList.BadgesDistinguish | components/risk/RiskWarningList.tsx:60-77 | Different levels get different colours, and so do different statuses. A level and a status share a colour only for LOW and RESOLVED (both green). |
| RiskWarningList.ViewedNotes | components/risk/RiskWarningList.tsx:197 | The warning's own notes, or '' when it has none. |
| RiskWarningList.RiskWarningList.constructor | components/risk/RiskWarningList.tsx:28-41 | No type filter, status ACTIVE, no notes, no selection, dialog closed. The hook is created with those filters and an empty list. |
| RiskWarningList.RiskWarningList.HandleTypeChange | components/risk/RiskWarningList.tsx:43-45 | The type filter is set and nothing else on the page changes. The hook refetches by that type and the current status and stops loading. On success the list is the answer, the error is cleared and no toast is added. On failure the list is kept, the error is 'Failed to fetch risk warnings' and an error toast with that text is added. |
| RiskWarningList.RiskWarningList.HandleStatusChange | components/risk/RiskWarningList.tsx:47-49 | The status filter is set and the hook refetches from the endpoint its filters name, with the same outcome on list, error, toasts and loading as for a type change. |
| RiskWarningList.RiskWarningList.SetResolutionNotes | components/risk/RiskWarningList.tsx:168 | Only the notes change. |
| RiskWarningList.RiskWarningList.SetResolveDialogOpen | components/risk/RiskWarningList.tsx:146-147 | Only the dialog flag changes. |
| RiskWarningList.RiskWarningList.Click | components/risk/RiskWarningList.tsx:143-202 | Only a row on screen (none is while the hook holds an error), and only a button its status shows, can be clicked. Resolve selects the row and opens the dialog. Delete deletes it through the hook and stops loading: on success the list no longer holds it and 'Risk warning deleted successfully' is toasted, on failure the list is kept and 'Failed to delete risk warning' is toasted. View Resolution selects the row and loads its notes. The hook's error never changes; Resolve and View Resolution leave the hook's list, toasts and loading alone. |
| RiskWarningList.RiskWarningList.HandleResolve | components/risk/RiskWarningList.tsx:51-58 | Nothing happens without a selection and non-empty notes. Otherwise the selection is resolved as 'current-user' with the notes. The hook stops loading and its error is unchanged. Only on success are the dialog closed, the notes cleared, the selection dropped, the cached warning replaced by the answer and 'Risk warning resolved successfully' toasted. On failure the page and the list are kept and 'Failed to resolve risk warning' is toasted. |
| RiskWarningList.DisabledMatchesGuard | components/risk/RiskWarningList.tsx:174 | With a warning selected, the Resolve Warning button is disabled exactly when `handleResolve` would do nothing (the guard is at line 52). |
| DocumentUpload.BuildFormData | app/documents/components/DocumentUpload.tsx:66-77 | The form is the four fixed entries in order, then `relatedEntityType` when it is non-empty and `relatedEntityId` (as decimal text) when it is given and not 0. Each of the two names is present exactly under that condition. |
| DocumentUpload.RelatedEntryNames | app/documents/components/DocumentUpload.tsx:71-77 | After entries of other names, each related-entity name is present exactly when its entry is appended. |
| DocumentUpload.HasEntryConcat | app/documents/components/DocumentUpload.tsx:66-77 | A concatenated form has a name exactly when one of its parts has it. |
| DocumentUpload.SentIdReadsBack | app/documents/components/DocumentUpload.tsx:76 | The id sent as text parses back to the id. |
| DocumentUpload.DocumentUpload.constructor | app/documents/components/DocumentUpload.tsx:39-48 | The props are stored; no file, empty category and description, no toasts, `onClose` not called. |
| DocumentUpload.DocumentUpload.HandleFileSelect | app/documents/components/DocumentUpload.tsx:54-58 | The first chosen file is taken; an empty choice keeps the old file; nothing else changes. |
| DocumentUpload.DocumentUpload.SetCategory | app/documents/components/DocumentUpload.tsx:127 | Only the category changes. |
| DocumentUpload.DocumentUpload.SetDescription | app/documents/components/DocumentUpload.tsx:143 | Only the description changes. |
| DocumentUpload.DocumentUpload.HandleClose | app/documents/components/DocumentUpload.tsx:88-93 | The inputs are cleared and `onClose` is called once more; the toasts are kept. |
| DocumentUpload.DocumentUpload.HandleUpload | app/documents/components/DocumentUpload.tsx:60-86 | Without a file or a category: one error toast, nothing sent, nothing cleared. Otherwise the form sent is exactly the one `BuildFormData` builds from the file, category, description, uploader and related entity, so `relatedEntityType` and `relatedEntityId` are in it exactly when given (non-empty, non-zero). Success gives a success toast and the close; failure gives an error toast and keeps the inputs. |
| DocumentUpload.DisabledMatchesGuard | app/documents/components/DocumentUpload.tsx:153 | The Upload button is disabled exactly when `handleUpload` would refuse (the guard is at line 61). |
| StatusChangeForm.AllPhasesListsEachOnce | app/components/business/StatusChangeForm.tsx:42 | The phase list names every phase, each once. |
| StatusChangeForm.OptionsFor | app/components/business/StatusChangeForm.tsx:42-46 | One option per phase, in order, carrying the phase's value and disabled exactly for the current phase. |
| StatusChangeForm.PhaseOptions | app/components/business/StatusChangeForm.tsx:41-47 | Twelve options, one per phase in declaration order; the disabled ones are exactly the current phase. |
| StatusChangeForm.OnlyCurrentPhaseDisabled | app/components/business/StatusChangeForm.tsx:43 | Exactly one option is disabled, and it is the current phase's. |
| StatusChangeForm.Errors | app/components/business/StatusChangeForm.tsx:36-89 | Target phase and operator fail exactly when empty. Reason and solution fail exactly when the abnormal switch is on and they are empty. No other field fails. |
| StatusChangeForm.FreshFormErrors | app/components/business/StatusChangeForm.tsx:32-34 | A fresh form (switch off) fails on the target phase and the operator only. |
| StatusChangeForm.Record | app/components/business/StatusChangeForm.tsx:19-22 | The values, with `previousPhase` set to the current phase's name; every other field is as entered. |
| StatusChangeForm.SubmitStatusChange | app/components/business/StatusChangeForm.tsx:18-31 | Something is sent exactly when validation passes. That is the record, and the form then goes back to its initial values. Otherwise the values stay. |
| StatusChangeForm.PreviousPhaseForced | app/components/business/StatusChangeForm.tsx:20-21 | A `previousPhase` among the values is overridden by the prop. |
| Forms.Missing | app/components/business/StatusChangeForm.tsx:39-53 | Among the required fields, exactly the empty ones fail. |
| Forms.Submit | app/components/business/StatusChangeForm.tsx:18-31 | antd's `onFinish` runs exactly when nothing fails: the record is sent and the fields reset. Otherwise nothing is sent and the values stay. |
| MarketingRecordForm.ReferralOptions | app/components/business/MarketingRecordForm.tsx:69-72 | One option per customer, in order: the name shown, the id stored. |
| MarketingRecordForm.NoCustomersNoOptions | app/components/business/MarketingRecordForm.tsx:15 | Without the `customers` prop there are no referral options. |
| MarketingRecordForm.Errors | app/components/business/MarketingRecordForm.tsx:34-90 | Exactly the empty required fields fail; the referral customer never does. |
| MarketingRecordForm.ZeroCostAccepted | app/components/business/MarketingRecordForm.tsx:42-45 | A cost of 0 counts as filled in; a cleared cost does not. |
| MarketingRecordForm.Record | app/components/business/MarketingRecordForm.tsx:20-23 | The values, with `effectiveDate` formatted as a date; every other field is as entered. |
| MarketingRecordForm.SubmitMarketingRecord | app/components/business/MarketingRecordForm.tsx:19-33 | The record is sent exactly when validation passes, and the form is then emptied. Otherwise the values stay. |
| Currency.Parse | app/components/business/MarketingRecordForm.tsx:50 | The parsed text is no longer and holds no ',' and no '¥'. |
| Currency.Format | app/components/business/MarketingRecordForm.tsx:49 | The formatted text starts with '¥ ' and is at least two and at most twice the value's length plus two long: separators are only ever inserted, at most one before each character. |
| Currency.FormatIsPrefixed | app/components/business/MarketingRecordForm.tsx:49 | The formatted text is '¥ ' followed by the separated value. |
| Currency.ParseSeparated | app/components/business/MarketingRecordForm.tsx:49-50 | Removing the separators from a separated text without '¥' or ',' gives the text back (induction). |
| Currency.ParseFormat | app/components/business/MarketingRecordForm.tsx:49-50 | The parser undoes the formatter on any text without '¥' and ','. |
| Currency.SeparatedDigits | app/components/business/MarketingRecordForm.tsx:49 | On a digit string, a separator goes exactly where a positive multiple of three digits remains. |
| Currency.GroupedIsDigitsSeparated | app/components/business/MarketingRecordForm.tsx:49 | That placement is the usual three-digit grouping (an independent definition). |
| Currency.FormatDigits | app/components/business/MarketingRecordForm.tsx:49 | An amount of digits is shown as '¥ ' and the digits grouped by threes. |
| MedicalRecordForm.RecordTypeOptions | app/components/business/MedicalRecordForm.tsx:16-50 | No options without the prop; otherwise one per record type, in order, with the type as key, value and text. |
| MedicalRecordForm.Errors | app/components/business/MedicalRecordForm.tsx:40-116 | Exactly the empty required fields fail; flags and follow-up actions never do. |
| MedicalRecordForm.ResponseUrls | app/components/business/MedicalRecordForm.tsx:25 | One entry per file, in order: the file's `response?.url`. |
| MedicalRecordForm.ReportFiles | app/components/business/MedicalRecordForm.tsx:25 | Always a list. It holds each uploaded file's URL when the upload value has a file list, and is empty otherwise. |
| MedicalRecordForm.Record | app/components/business/MedicalRecordForm.tsx:21-26 | The date is formatted, the flags default to [] and the report files become their URLs; every other field is as entered. |
| MedicalRecordForm.RecordListsAreLists | app/components/business/MedicalRecordForm.tsx:24-25 | With the flags absent or a list, both list fields of the record are lists. |
| MedicalRecordForm.SubmitMedicalRecord | app/components/business/MedicalRecordForm.tsx:20-39 | The record is sent exactly when validation passes, and the form then resets to no flags. Otherwise the values stay. |
| Query.GetRequest | app/api/financeApi.ts:75 | A query returning a bare URL is a GET on that URL with no body. |
| Query.ReadQueryString | app/api/customerApi.ts:60-61 | Parameters whose keys hold no '&' or '=' and whose values hold no '&' read back from their query string, in order. |
| Query.SplicedValueInjectsParameter | app/api/customerApi.ts:60-61 | Since values are spliced in unescaped, a value containing `&k=w` gives the same query string as that value cut short followed by its own parameter `k=w`. |
| Query.PageReadsBack | app/api/customerApi.ts:60-61 | The search, page and size parameters read back from `path?search=…&page=…&size=…` when the term holds no '&'. |
| Query.ItemUrl | app/api/customerApi.ts:65 | `${collection}/${id}` starts with the collection and a '/', and the rest parses back to the id. |
| Query.ItemUrlInjective | app/api/customerApi.ts:65 | Two ids give the same item URL only if they are equal. |
| FinanceApi.AppendIfGiven | app/api/financeApi.ts:67-69 | `if (v) url += '&k=v'` extends the URL's parameter list by the optional parameter. |
| FinanceApi.SearchTransactions | app/api/financeApi.ts:65-71 | The URL is the search path with the page parameters, then each of startDate, endDate and type when it is non-empty. |
| FinanceApi.SearchParamsSeparable | app/api/financeApi.ts:65-71 | With no '&' in the term or the filters, no parameter can be mistaken for two. |
| FinanceApi.SearchReadsBack | app/api/financeApi.ts:65-71 | Under the same condition, the server reads back exactly the path and the parameters sent. |
| FinanceApi.SearchParamValues | app/api/financeApi.ts:65-71 | Search, page and size are always present, with defaults '', 0 and 10 and the numbers parsing back. Each date and the type are present exactly when given non-empty. |
| FinanceApi.SearchDefaults | app/api/financeApi.ts:65 | With nothing given: `search=&page=0&size=10`. |
| FinanceApi.EmptyTypeAddsNoParameter | app/api/financeApi.ts:69 | An empty type filter adds no type parameter. |
| FinanceApi.SearchTermInjectsParameter | app/api/financeApi.ts:66 | A term `u&size=1000` is read as the term `u` plus a `size=1000` ahead of the real page and size. |
| FinanceApi.GetFinancialReport | app/api/financeApi.ts:105-110 | The period, then each date when it is non-empty. |
| FinanceApi.ReportReadsBack | app/api/financeApi.ts:105-110 | With no '&' in the inputs, the server reads back exactly those parameters. |
| FinanceApi.ReportParamValues | app/api/financeApi.ts:105-110 | The period is always present; each date exactly when given non-empty. |
| FinanceApi.ProfitTrend | app/api/financeApi.ts:118-120 | A GET with no body on `/finance/stats/profit` whose one query parameter is the period, for every period. |
| FinanceApi.ProfitTrendReadsBack | app/api/financeApi.ts:119 | The period is the one parameter read back when it holds no '&'. |
| FinanceApi.GetTransaction | app/api/financeApi.ts:74-77 | A GET on the transaction's own URL. |
| FinanceApi.CreateTransaction | app/api/financeApi.ts:78-85 | A POST of the transaction to the collection. |
| FinanceApi.UpdateTransaction | app/api/financeApi.ts:86-93 | A PUT of the patch to the transaction's URL. |
| FinanceApi.DeleteTransaction | app/api/financeApi.ts:94-100 | A DELETE on the transaction's URL, without a body. |
| FinanceApi.SameTransactionUrl | app/api/financeApi.ts:74-100 | Read, update and delete address the same URL and differ in method. |
| CustomerApi.SearchCustomers | app/api/customerApi.ts:59-63 | A GET on the search path with search, page and size, which read back when the term holds no '&'. |
| CustomerApi.SearchDefaults | app/api/customerApi.ts:60 | With nothing given: `/customers/search?search=&page=0&size=10`. |
| CustomerApi.GetCustomer | app/api/customerApi.ts:64-67 | A GET on the customer's URL. |
| CustomerApi.CreateCustomer | app/api/customerApi.ts:68-75 | A POST of the customer to `/customers`. |
| CustomerApi.UpdateCustomer | app/api/customerApi.ts:76-83 | A PUT of the patch to the customer's URL. |
| CustomerApi.DeleteCustomer | app/api/customerApi.ts:84-90 | A DELETE on the customer's URL. |
| CustomerApi.SameCustomerUrl | app/api/customerApi.ts:64-90 | Read, update and delete address the same URL and differ in method. |
| CustomerApi.StatsRequest | app/api/customerApi.ts:91-99 | A GET with no body and no parameters, on `/customers/stats/status`, `/customers/stats/risk-level` and `/stats` respectively. |
| CustomerApi.StatsUrlsDistinct | app/api/customerApi.ts:91-99 | The three statistics queries address three different endpoints. |
| DocumentApi.SearchDocuments | app/api/documentApi.ts:52-56 | A GET on the search path with search, page and size, which read back when the term holds no '&'. |
| DocumentApi.SearchDefaults | app/api/documentApi.ts:53 | With nothing given: `/documents/search?search=&page=0&size=10`. |
| DocumentApi.GetDocument | app/api/documentApi.ts:57-60 | A GET on the document's URL. |
| DocumentApi.UploadDocument | app/api/documentApi.ts:61-68 | A POST of the form data to `/documents/upload`. |
| DocumentApi.DeleteDocument | app/api/documentApi.ts:69-75 | A DELETE on the document's URL. |
| DocumentApi.SameDocumentUrl | app/api/documentApi.ts:57-75 | Read and delete address the same URL and differ in method. |
| DocumentApi.DocumentsByEntity | app/api/documentApi.ts:76-82 | A GET on `/documents/entity/{type}/{id}`. |
| DocumentApi.EntityUrlSegments | app/api/documentApi.ts:80 | Without '/' in the type, the path splits into documents, entity, the type and the id, and the id parses back. |
| DocumentApi.DocumentsByEntityAndCategory | app/api/documentApi.ts:83-90 | A GET on the entity's URL followed by `/category/{category}`. |
| DocumentApi.CategoryUrlSegments | app/api/documentApi.ts:88 | Without '/' in the type or the category, each reads back from its own path segment. |
| DocumentApi.DocumentStats | app/api/documentApi.ts:91-96 | A GET with no body and no parameters on `/documents/stats`. |
| ResourceApi.SearchResources | app/api/resourceApi.ts:158-159 | A GET on `/resources/search` with type, search, page and size, in that order. |
| ResourceApi.SearchReadsBack | app/api/resourceApi.ts:158-159 | Without '&' in the type or the term, the server reads back exactly those parameters, and the type is the one given. |
| ResourceApi.SearchPageValues | app/api/resourceApi.ts:158 | Page and size default to 0 and 10 and parse back. |
| ResourceApi.ResourcesByStatus | app/api/resourceApi.ts:166-167 | A GET on `/resources/status` with type, status, page and size. |
| ResourceApi.StatusReadsBack | app/api/resourceApi.ts:166-167 | Without '&' in the type or the status, the server reads back exactly those parameters. |
| ResourceApi.StatusPageValues | app/api/resourceApi.ts:166 | Page and size default to 0 and 10 and parse back. |
| ResourceApi.GetResource | app/api/resourceApi.ts:170-173 | A GET on the resource's URL. |
| ResourceApi.CreateResource | app/api/resourceApi.ts:174-181 | Takes `{type, resource}` and POSTs the resource to `/resources/{type}`. |
| ResourceApi.CreateUrlSegments | app/api/resourceApi.ts:176 | Without '/' in the type, the path splits into resources and the type. |
| ResourceApi.UpdateResource | app/api/resourceApi.ts:182-189 | A PUT of the patch to the resource's URL. |
| ResourceApi.DeleteResource | app/api/resourceApi.ts:190-196 | A DELETE on the resource's URL. |
| ResourceApi.SameResourceUrl | app/api/resourceApi.ts:170-196 | Read, update and delete address the same URL and differ in method. |
| ResourceApi.DistributionPath | app/api/resourceApi.ts:197-208 | Each distribution's path has no query of its own. |
| ResourceApi.DistributionRequest | app/api/resourceApi.ts:197-208 | A GET with no body on the distribution's path whose one query parameter is the type, for every type; it reads back when the type holds no '&'. |
| ResourceApi.DistributionUrlsDistinct | app/api/resourceApi.ts:197-208 | For any type, the four distributions are four different URLs. |
| ResourceApi.TypeOnlyTemplate | app/api/resourceApi.ts:198 | `${path}?type=${t}` is the query string of the one parameter. |
| ResourceApi.ResourceStats | app/api/resourceApi.ts:209-211 | A GET with no body and no parameters on `/stats`. |
| FormRules.StripSpaces | app/business/new/page.tsx:33 | Removes exactly the white space: the result has the other characters and no space. |
| FormRules.NumberCast | app/business/new/page.tsx:28 | A number stays itself; the empty text and every non-text, non-number value cast to no number. |
| FormRules.SchemaErrors | app/business/new/page.tsx:27-36 | Exactly the schema fields whose value fails its rule. |
| FormRules.CastNumbers | app/business/new/page.tsx:55 | Same fields. Each number field that casts becomes that number, and every other field is kept. |
| FormRules.RequiredString | app/business/new/page.tsx:29 | A required string fails exactly on undefined, null, '', a list or an object. |
| FormRules.NumberAtLeast | app/business/new/page.tsx:33 | A required number with a minimum accepts exactly the numbers at or above it, and refuses the empty field. |
| FormRules.RhfNumber | app/customers/new/page.tsx:378-381 | The number react-hook-form compares with `min`: a number is itself, a text is JavaScript's `Number` of it as it stands, a boolean is 1 or 0, and NaN, objects and empty values are no number. |
| FormRules.RuleErrors | app/customers/new/page.tsx:157 | Exactly the ruled fields whose value fails its rules. |
| FormRules.AbsentRequiredFails | app/customers/new/page.tsx:157 | A required field that was never set fails. |
| FormRules.TextPassesRule | app/customers/new/page.tsx:157 | Non-empty text passes a rule without a minimum. |
| FormRules.NumberPassesRule | app/customers/new/page.tsx:378-381 | A number at or above the minimum passes. |
| FormRules.UnreadableTextSkipsMin | app/customers/new/page.tsx:378-381 | A non-empty text that `Number` cannot read (such as "-1 000") passes a required field with a minimum: the comparison is skipped. |
| FormRules.CreateFlow | app/business/new/page.tsx:68-80 | With errors nothing is sent. Otherwise the payload is created: success shows the created notice and opens the new record's page, failure shows the failure notice. |
| FormRules.CreatedPathNamesRecord | app/business/new/page.tsx:76 | The page opened after a creation is the collection's, and its last segment parses to the new id. |
| BusinessNew.Errors | app/business/new/page.tsx:27-36 | Exactly the schema fields whose value breaks its yup rule. |
| BusinessNew.DefaultCustomer | app/business/new/page.tsx:57 | No parameter gives undefined; a parameter that parses gives that number (one that does not gives NaN). |
| BusinessNew.Defaults | app/business/new/page.tsx:56-65 | Every schema field has a default: status Pending, risk Low, budget 0, process type empty. |
| BusinessNew.FreshFormErrors | app/business/new/page.tsx:56-65 | A fresh form fails on the process type only when the customer parameter parses (the customer is then locked). Otherwise it also fails on the customer (the lock is at line 114). |
| BusinessNew.ZeroBudgetPasses | app/business/new/page.tsx:33 | A budget of 0 passes; a negative one fails. |
| BusinessNew.ClearedRequiredFails | app/business/new/page.tsx:28-34 | Clearing any required field makes it fail. |
| BusinessNew.OptionalTextsNeverBlock | app/business/new/page.tsx:32-35 | Whatever text the end date and notes hold, the errors are the same. |
| BusinessNew.Payload | app/business/new/page.tsx:70-74 | The values with `stages: []` added; fields outside the schema are kept. |
| BusinessNew.ValidPayloadIsNumeric | app/business/new/page.tsx:72 | A valid form's payload has a non-negative numeric budget and a numeric customer. |
| BusinessNew.OnSubmit | app/business/new/page.tsx:68-80 | The submit as intended (see "## Findings": as written the page throws while rendering). Invalid exactly when a rule fails. A valid form is created exactly when the create call succeeds: the payload is sent and `/business/{id}` opens with 'Process created successfully'. Otherwise it fails with 'Failed to create process'. |
| FinanceNew.Errors | app/finance/new/page.tsx:27-35 | Exactly the schema fields whose value breaks its yup rule. |
| FinanceNew.DefaultProcess | app/finance/new/page.tsx:61 | No parameter gives null; otherwise its `parseInt`, which is NaN when it does not parse. |
| FinanceNew.Defaults | app/finance/new/page.tsx:54-62 | Every schema field has a default: empty type and category, amount 0, and the process from the parameter. |
| FinanceNew.FreshFormErrors | app/finance/new/page.tsx:54-62 | A fresh form fails on type and category. It also fails on the process, which is then locked, exactly when the parameter does not parse (the lock is at line 183). |
| FinanceNew.ProcessOptionalAmountNonNegative | app/finance/new/page.tsx:30-34 | A null or absent process passes; an amount of 0 passes, a negative one fails. |
| FinanceNew.ClearedRequiredFails | app/finance/new/page.tsx:28-31 | Clearing any required field makes it fail. |
| FinanceNew.Payload | app/finance/new/page.tsx:67-71 | The values with `documentUrls: []` added; fields outside the schema are kept. |
| FinanceNew.ValidPayloadIsNumeric | app/finance/new/page.tsx:69 | A valid form's payload has a non-negative numeric amount and keeps its type. |
| FinanceNew.OnSubmit | app/finance/new/page.tsx:65-77 | The submit as intended (see "## Findings": as written the page throws while rendering). Invalid exactly when a rule fails. A valid form is created exactly when the create call succeeds, opening `/finance/{id}` with 'Transaction created successfully'. Otherwise it fails with 'Failed to create transaction'. |
| BusinessApiWiring.Capitalize | app/api/businessApi.ts:146-156 | Same length and tail; a lower-case first letter becomes its upper-case form. |
| BusinessApiWiring.HookName | app/api/businessApi.ts:146-156 | The generated hook's name is 'use', the capitalised endpoint name, then 'Query' or 'Mutation' by kind. |
| BusinessApiWiring.InjectedHooks | app/api/businessApi.ts:146-156 | Exactly the hook names of the given endpoints. |
| BusinessApiWiring.CallMember | app/business/new/page.tsx:43 | Calling a key off an object throws exactly when the object lacks the key. |
| BusinessApiWiring.BusinessNewThrowsAtRender | app/business/new/page.tsx:43 | As written, `businessApi.useCreateProcessMutation()` throws: the exported object has no such key. |
| BusinessApiWiring.FinanceNewThrowsAtRender | app/finance/new/page.tsx:43 | As written, `businessApi.useSearchProcessesQuery(...)` throws: the exported object has no such key. |
| BusinessApiWiring.InjectedHooksRender | app/api/businessApi.ts:146-156 | With `searchProcesses` and a `createProcess` mutation injected, both hooks the pages call exist. |
| ResourcesNew.Errors | app/resources/new/page.tsx:25-35 | Exactly the schema fields whose value breaks its yup rule. |
| ResourcesNew.ValidExactlyWhenRequiredFilled | app/resources/new/page.tsx:25-35 | On text values, the form is valid exactly when name, type, status and location are non-empty. |
| ResourcesNew.Defaults | app/resources/new/page.tsx:48-58 | Every field starts empty except status, which is 'Available'. |
| ResourcesNew.FreshFormErrors | app/resources/new/page.tsx:48-58 | A fresh form fails on name, type and location. |
| ResourcesNew.Payload | app/resources/new/page.tsx:63-67 | The values with empty `maintenanceHistory` and `documentUrls` added. |
| ResourcesNew.CreateRequest | app/api/resourceApi.ts:175-179 | The mutation reads `type` for the path and `resource` for the body. |
| ResourcesNew.ArgumentAsWritten | app/resources/new/page.tsx:63-67 | The page hands the mutation the flat payload. |
| ResourcesNew.AsWrittenSendsNoBody | app/resources/new/page.tsx:63-67 | For any form, that argument makes the request's body undefined. |
| ResourcesNew.Argument | app/api/resourceApi.ts:174 | The argument the mutation expects: the form's type and the payload as the resource. |
| ResourcesNew.ArgumentSendsForm | app/api/resourceApi.ts:174-179 | With that argument the POST goes to the form's type and carries the payload. |
| ResourcesNew.OnSubmit | app/resources/new/page.tsx:61-73 | Models the corrected call named under "## Findings": the mutation receives `Argument(values)` (`{type, resource}`), not the flat object the page passes. Invalid exactly when a rule fails. A valid form is created exactly when the create call succeeds, opening `/resources/{id}` with 'Resource created successfully'. Otherwise it fails with 'Failed to create resource'. |
| CustomersNew.Errors | app/customers/new/page.tsx:157-549 | Exactly the ruled fields whose value breaks its rules. |
| CustomersNew.UnruledFieldsNeverFail | app/customers/new/page.tsx:113-124 | Setting a field without rules never changes the errors. |
| CustomersNew.RequiredAndBudget | app/customers/new/page.tsx:378-381 | A ruled field other than the budget fails exactly when empty. The budget fails exactly when negative or empty, and 0 passes. |
| CustomersNew.Defaults | app/customers/new/page.tsx:113-124 | The declared defaults: MALE, UNFOLLOW, SINGLE, PLAN_1, budget 0, and null dates. |
| CustomersNew.IdentityFieldsStartEmpty | app/customers/new/page.tsx:157-292 | Each identity field is required and has no default. |
| CustomersNew.FreshFormErrors | app/customers/new/page.tsx:113-124 | A fresh form fails on exactly the six identity fields. |
| CustomersNew.OnSubmit | app/customers/new/page.tsx:126-135 | Invalid exactly when a rule fails. The values are sent unchanged. A valid form is created exactly when the create call succeeds, opening `/customers/{id}` with the success snackbar; otherwise the error one shows. |
| Js.Or | app/components/business/MedicalRecordForm.tsx:24 | `a \|\| b` is `a` when `a` is truthy and `b` otherwise. |
| Js.OptGet | app/components/business/MedicalRecordForm.tsx:25 | `v?.k` is undefined on null or undefined, and anything else it yields is the object's own field. |
| Js.ParseIntOfIntToString | app/business/new/page.tsx:57 | `parseInt` reads back the decimal text of every integer. |
| Lists.Filter | hooks/useCustomers.ts:107 | The kept elements all pass, each passing element keeps its multiplicity, and the order is kept (the same filter is at line 21). |
| Lists.ReplaceWhere | hooks/useCustomers.ts:128 | Same length; each element is replaced exactly when it matches (the same replacement is at lines 85 and 160). |

## Left out

- Network and RTK Query machinery: HTTP, cache tags, invalidation, `baseApi` headers and `unwrap`. Each call is a function parameter answering a value or a rejection. The clients that only forward a params object (the business, risk-warning and auth clients) are not part of this model.
- Concurrency: async interleavings, render batching and promise scheduling. Each handler is one sequential step, so the snapshot-versus-functional update difference between the two `useTable` search handlers does not show.
- Dates and clocks: "today" in the new pages' defaults, and the dayjs and date-fns formatting, are parameters.
- `jwtDecode` is a parameter that either answers the claims or throws.
- Floating-point and `Intl` formatting (file sizes, percentages, `toLocaleString` amounts) are not modelled. Numbers are reals, and the infinities are not represented.
- types/customer.ts is not part of this model: a customer carries only its id, type, status and name.
- BusinessNew.OnSubmit: describes the page as intended, with the creation as a parameter; as written the page throws while rendering (see "## Findings").
- FinanceNew.OnSubmit: describes the page as intended; as written the page throws while rendering (see "## Findings").
- CustomersNew.OnSubmit: the `console.error` of a failed creation (app/customers/new/page.tsx:132) is logging and is not modelled.
- FormRules.RhfNumber: a non-empty array under a `min` rule is treated as no number; JavaScript would read a one-element array as its element.
- FormRules.NumberCast: JavaScript's `Number` of a text is a parameter (`numberOf`), not a decimal parser.
- FormRules.CastNumbers: yup's cast of numbers to text in string fields is not rendered; such values pass the rule and stay numbers in the payload.
- Currency.Format: the quirk that the separator pattern also groups digits after a decimal point is modelled by the definition but no lemma states it.
- Toasts and snackbars are both recorded as one notice kind (text and variant); the distinction between `useToast` and notistack is not kept.
- Query string values are spliced in without escaping, as the source does. The read-back lemmas therefore require values without '&'; what an unescaped '&' does is stated separately.

## Findings

| source | as written | input that shows it | evidently intended | confidence | as-written member | corrected member |
|---|---|---|---|---|---|---|
| app/resources/new/page.tsx:63-67 | `createResource({...data, maintenanceHistory: [], documentUrls: []})` passes the flat form values, while the mutation at app/api/resourceApi.ts:174-179 destructures `{type, resource}`. The POST goes to `/resources/<form type>` with an undefined body. | any valid form, e.g. name "A", type "Equipment", status "Available", location "L" | `createResource({type: data.type, resource: {...data, maintenanceHistory: [], documentUrls: []}})`, so that the payload is the body | not executed | ResourcesNew.AsWrittenSendsNoBody | ResourcesNew.ArgumentSendsForm |
| app/business/new/page.tsx:43 | `businessApi.useCreateProcessMutation()` is called while rendering, but app/api/businessApi.ts:146-156 exports a plain object (the `businessApiBase` functions and `endpoints`) that was never passed to `injectEndpoints`, so the key is undefined and the call throws a TypeError. | opening the page at all | build `businessApi` with `baseApi.injectEndpoints`, with a `createProcess` mutation, so that the hook exists and the submit can run | not executed | BusinessApiWiring.BusinessNewThrowsAtRender | BusinessApiWiring.InjectedHooksRender |
| app/finance/new/page.tsx:43 | `businessApi.useSearchProcessesQuery(...)` is called while rendering; the `searchProcesses` endpoint is declared in `endpoints` (app/api/businessApi.ts:149-154) but never injected, so no hook exists and the call throws a TypeError. | opening the page at all | inject the declared endpoints so that `useSearchProcessesQuery` exists | not executed | BusinessApiWiring.FinanceNewThrowsAtRender | BusinessApiWiring.InjectedHooksRender |
