# Senara Cosmetics admin front end: a Dafny model of its table, request and cache logic

This project models the sequential logic of the Senara Cosmetics admin console front end. It covers six areas:

- **Server-mode table controller** (`useServerDataTable`). A class whose fields are the hook's UI state: sorting, column filters, global filter, selection and visibility. It also keeps the log of `ServerTableFilters` records handed to `onFiltersChange`.
- **Client-mode table controller** (`useDataTable`): data normalisation, the initial state, and the three change handlers.
- **Server table view** (`ServerDataTable`): the has-filters test and the clear-filters button, the row-range caption, page navigation, the page-size selector, the table body and the column-visibility menu.
- **API client** (`ApiClient`): error classification into `{ status, message, errors? }`, the bearer-token store and the header interceptor. Status codes are those of section 15 of RFC 9110.
- **Query-cache policy**:
  - retry predicates and capped exponential back-off;
  - hierarchical cache keys;
  - mutation side effects: toasts, invalidations, and optimistic updates with rollback;
  - error-toast expansion;
  - the `{ data, loading, error }` request state machine of `useApi`.
- **Request construction**:
  - `UserService` and `roleApi` query strings, form fields and paths;
  - the `application/x-www-form-urlencoded` serialization of `URLSearchParams`, with a parse-back proof;
  - the maintenance-mode middleware.

Layout, one module per source file:

| file | source |
|---|---|
| `js.dfy` | shared JS values, truthiness, `String(v)`, decimal print and parse |
| `table_state.dfy` | shared table state types |
| `server_table.dfy` | `use-server-data-table.tsx` |
| `client_table.dfy` | `use-data-table.tsx` |
| `server_table_view.dfy` | `server-data-table.tsx` |
| `api_client.dfy` | `api.ts` |
| `query_client.dfy` | `query-client.ts` |
| `query_keys.dfy` | `query-keys.ts` |
| `effects.dfy` | the ordered log of toasts, invalidations and caller callbacks |
| `use_api_error.dfy` | `useApiError.ts` |
| `use_crud.dfy` | `useCrud.ts` |
| `use_api.dfy` | `useApi.ts` |
| `url_encoding.dfy` | `URLSearchParams` |
| `http.dfy` | the requests the services build |
| `user_service.dfy` | `user.service.ts` |
| `role_api.dfy` | `role-api.ts` |
| `middleware.dfy` | `middleware.ts` |

Modelling choices:

- **JS objects.** An object that is spread (`ServerTableFilters`, query options) is a `map<string, Val>`, so `{...a, ...b}` is `a + b`. An object whose entry order matters (`Object.entries`) is a sequence of pairs.
- **React state.** State that React keeps in `useState` becomes fields of a class. The handlers are methods that assign those fields.
- **Callbacks and effects.** Callbacks the caller passes in are known only by whether they were given. Effects are appended to one ordered log.
- **Given as inputs.** The browser (local storage, the CSRF meta tag, `window.location`) and the outcome of each awaited request are parameters.
- **TanStack decisions.** These are inputs too: `getCanNextPage`, `getCanPreviousPage`, and which columns have an accessor.

## Model

| member | source | states |
|---|---|---|
| ServerTable.DisplayedPagination | src/hooks/common/use-server-data-table.tsx:60-63 | pageIndex is `page - 1` for a non-zero numeric page, else 0, since a falsy page reads as page 1; pageSize is a non-zero numeric `limit`, else 10; the size is never 0 |
| ServerTable.PaginationEmission | src/hooks/common/use-server-data-table.tsx:65-81 | the record is the base with `page = pageIndex + 1` and `limit = pageSize`; every other base key is copied unchanged |
| ServerTable.OrderOf | src/hooks/common/use-server-data-table.tsx:95 | the order is "desc" iff the entry is descending, else "asc" |
| ServerTable.SortingEmission | src/hooks/common/use-server-data-table.tsx:84-108 | page becomes 1; a non-empty sorting sends only its first entry's id and order; an empty one sends sort and order as undefined; other keys are kept |
| ServerTable.ColumnFilterMap | src/hooks/common/use-server-data-table.tsx:127-130 | the map's keys are exactly the filter ids |
| ServerTable.ColumnFilterMapLastWins | src/hooks/common/use-server-data-table.tsx:127-130 | for a repeated id, the value of its last occurrence is the one sent |
| ServerTable.ColumnFiltersEmission | src/hooks/common/use-server-data-table.tsx:120-135 | page becomes 1; the id→value map overrides the base; base keys without a filter are kept |
| ServerTable.SearchEmission | src/hooks/common/use-server-data-table.tsx:55-57 | the record is the base with `search = value` and `page = 1`; other keys are kept |
| ServerTable.UpdateEmission | src/hooks/common/use-server-data-table.tsx:191-196 | the partial overrides the base, and the page is unchanged unless the partial names it |
| ServerTable.Delivered | src/hooks/common/use-server-data-table.tsx:30 | an absent `onFiltersChange` delivers nothing; a present one delivers exactly the record |
| ServerTable.Summary | src/hooks/common/use-server-data-table.tsx:205-212 | `hasNextPage` iff currentPage < pageCount; `hasPreviousPage` iff currentPage > 1; counts are passed through |
| ServerTable.PaginationRoundTrip | src/hooks/common/use-server-data-table.tsx:60-78 | emitting a pagination and reading it back gives it again, iff pageIndex ≠ -1 and pageSize ≠ 0 (0 is falsy) |
| ServerTable.DefaultSummaryHasNoNeighbours | src/hooks/common/use-server-data-table.tsx:39-41 | with the defaults (page 1, page count 0) neither next nor previous exists |
| ServerTable.ResetsLandOnFirstPage | src/hooks/common/use-server-data-table.tsx:84-135 | sort, filter and search emissions all display page index 0 |
| ServerTable.ServerTableController.constructor | src/hooks/common/use-server-data-table.tsx:36-52 | the prop defaults, and empty local state |
| ServerTable.ServerTableController.PaginationInfo | src/hooks/common/use-server-data-table.tsx:205-212 | the summary's page and size are those of the pagination handed to the table; `hasNextPage` iff currentPage < pageCount, `hasPreviousPage` iff currentPage > 1; counts passed through |
| ServerTable.ServerTableController.Rerender | src/hooks/common/use-server-data-table.tsx:36-63 | new props replace the old ones; the displayed pagination becomes the one derived from the new `initialFilters`; every other part of the table state survives |
| ServerTable.ServerTableController.Emit | src/hooks/common/use-server-data-table.tsx:30 | the log grows by the delivered record, or by nothing without a listener |
| ServerTable.ServerTableController.SetPagination | src/hooks/common/use-server-data-table.tsx:60-81 | the updater sees the derived pagination; the emitted record is its pagination emission; the table state, displayed page included, does not move until the parent re-renders |
| ServerTable.ServerTableController.SortingChange | src/hooks/common/use-server-data-table.tsx:84-108 | sorting is stored, then its emission is delivered |
| ServerTable.ServerTableController.GlobalFilterChange | src/hooks/common/use-server-data-table.tsx:111-117 | the filter is stored at once; the emission is only scheduled |
| ServerTable.ServerTableController.DebounceElapsed | src/hooks/common/use-server-data-table.tsx:55-57 | the scheduled value is delivered as a search emission, once |
| ServerTable.ServerTableController.ColumnFiltersChange | src/hooks/common/use-server-data-table.tsx:120-135 | filters are stored, then their emission is delivered |
| ServerTable.ServerTableController.ColumnVisibilityChange | src/hooks/common/use-server-data-table.tsx:162 | only visibility changes, by the updater |
| ServerTable.ServerTableController.RowSelectionChange | src/hooks/common/use-server-data-table.tsx:163 | only selection changes, by the updater |
| ServerTable.ServerTableController.ResetFilters | src/hooks/common/use-server-data-table.tsx:173-177 | clears global filter, column filters and sorting; emits nothing; selection and visibility untouched (frame) |
| ServerTable.ServerTableController.ClearSelection | src/hooks/common/use-server-data-table.tsx:187-189 | empties the selection and nothing else |
| ServerTable.ServerTableController.UpdateServerFilters | src/hooks/common/use-server-data-table.tsx:191-196 | delivers base merged with the partial, with no page reset |
| ServerTable.ServerTableController.TypeWithinWindow | src/hooks/common/use-server-data-table.tsx:111-117 | keystrokes within one window emit exactly one record, carrying the last value |
| ServerTable.SearchScenario | src/hooks/common/use-server-data-table.tsx:55-57 | typing "foo" under the defaults makes exactly one call: `{page: 1, limit: 10, search: "foo"}` |
| ClientTable.NormalizeData | src/hooks/common/use-data-table.tsx:36-42 | the shared empty array iff the data is missing, not an array, or empty; otherwise the rows pass through |
| ClientTable.InitialPagination | src/hooks/common/use-data-table.tsx:51-54 | page index 0 and page size 10 unless the initial state supplies them |
| ClientTable.InitialTableState | src/hooks/common/use-data-table.tsx:44-58 | selection, visibility and sorting come from the initial state, else empty; column filters always start empty |
| ClientTable.AfterColumnFilters | src/hooks/common/use-data-table.tsx:79-87 | filters apply the updater; pagination becomes page 0 with the same size; nothing else changes |
| ClientTable.AfterSorting | src/hooks/common/use-data-table.tsx:70-77 | only sorting changes; pagination is untouched |
| ClientTable.AfterPagination | src/hooks/common/use-data-table.tsx:60-67 | an updater function is applied to the current pagination; a value replaces it |
| ClientTable.FilterChangesKeepPageSize | src/hooks/common/use-data-table.tsx:79-87 | any two filter changes in a row land on page 0 with the original page size |
| ClientTable.ClientTableController.constructor | src/hooks/common/use-data-table.tsx:35-58 | the state is seeded by the initial state; row selection is enabled whatever the caller passed (line 100) |
| ClientTable.ClientTableController.ReceiveData | src/hooks/common/use-data-table.tsx:36-42 | new data is normalised; the state is kept |
| ClientTable.ClientTableController.PaginationChange | src/hooks/common/use-data-table.tsx:60-67 | the new state is `AfterPagination` of the old one |
| ClientTable.ClientTableController.SortingChange | src/hooks/common/use-data-table.tsx:70-77 | the new state is `AfterSorting` of the old one |
| ClientTable.ClientTableController.ColumnFiltersChange | src/hooks/common/use-data-table.tsx:79-87 | the new state is `AfterColumnFilters` of the old one |
| ClientTable.ClientTableController.RowSelectionChange | src/hooks/common/use-data-table.tsx:101 | only selection changes, by the updater |
| ClientTable.ClientTableController.ColumnVisibilityChange | src/hooks/common/use-data-table.tsx:105 | only visibility changes, by the updater |
| ServerTableView.ClearFilters | src/components/data-table/server-data-table.tsx:96-103 | afterwards there are no filters; the filter emission is delivered and the empty search is scheduled |
| ServerTableView.ClearButtonShown | src/components/data-table/server-data-table.tsx:68 | `HasFilters` holds iff some column filter is set or the global filter is a truthy string; without it both are empty |
| ServerTableView.PageRange | src/components/data-table/server-data-table.tsx:213-220 | currentPage = pageIndex + 1, startRow = pageIndex·pageSize + 1, endRow = min(currentPage·pageSize, totalRows); hence endRow ≤ totalRows, at most a page is shown, and a full page when enough rows exist |
| ServerTableView.EmptyResultRange | src/components/data-table/server-data-table.tsx:219-220 | with no rows, endRow is 0 while startRow stays ≥ 1 |
| ServerTableView.NavButtons | src/components/data-table/server-data-table.tsx:256-291 | first sets index 0 and last sets pageCount−1; first/previous are enabled iff previous is possible, next/last iff next is |
| ServerTableView.PageSizeItems | src/components/data-table/server-data-table.tsx:237-241 | the items are the decimal renderings of 10, 20, 30, 40, 50 |
| ServerTableView.PageSizeItemRoundTrip | src/components/data-table/server-data-table.tsx:227-242 | choosing any item asks for exactly that page size |
| ServerTableView.PageSizeRequestOfDecimal | src/components/data-table/server-data-table.tsx:228-230 | `PageSizeRequest` reads the decimal rendering of any size back as that size |
| ServerTableView.Body | src/components/data-table/server-data-table.tsx:166-196 | loading shows 5 skeleton rows with one cell per column; no rows shows one row spanning all columns with the message; otherwise one row per data row |
| ServerTableView.VisibilityMenu | src/components/data-table/server-data-table.tsx:123-127 | a column is listed iff it has an accessor and can hide; the menu is no longer than the column list |
| ServerTableView.VisibilityMenuAppend | src/components/data-table/server-data-table.tsx:123-127 | the menu keeps column order: the menu of two runs of columns is the first's menu followed by the second's |
| ServerTableView.VisibilityMenuSingle | src/components/data-table/server-data-table.tsx:126 | one column is listed on its own iff it has an accessor and can hide |
| ServerTableView.ToggleColumn | src/components/data-table/server-data-table.tsx:134 | the toggled column takes the checked value; every other column keeps its own |
| ServerTableView.ToggleVisibilityItem | src/components/data-table/server-data-table.tsx:130-134 | a menu tick changes that column's visibility only and emits nothing |
| Js.ParseNatOfNatToString | src/components/data-table/server-data-table.tsx:228-230 | `Number` of the decimal rendering `${n}` gives n back |
| Js.ParseIntOfIntToString | src/services/user.service.ts:81 | reading back a printed integer id gives it back |
| Js.IntToStringInjective | src/services/user.service.ts:81 | distinct ids print differently |
| Api.GetErrorMessage | src/lib/api.ts:109-116 | a string body is returned as is; for an object, its `message`, else its `error`, else the fallback text |
| Api.FixedMessage | src/lib/api.ts:63-88 | each of 400/401/403/404/422/500/503 has a non-empty fixed message |
| Api.StatusMessage | src/lib/api.ts:63-91 | known statuses get their fixed message; any other gets `"Lỗi <status>: " + getErrorMessage(body)` |
| Api.Classify | src/lib/api.ts:53-107 | a response keeps its status; a truthy body `message` overrides the switch; `errors` only for 422 with an object body holding them; no response gives (0, network message); no request keeps 500 with `error.message` or the fallback |
| Api.WithAuthHeaders | src/lib/api.ts:24-37 | Authorization is `"Bearer " + token` iff a token is given, and X-CSRF-TOKEN iff the meta tag is present; others are kept |
| Api.ApiClient.constructor | src/lib/api.ts:7-21 | the browser flag, the stored token and the meta tag; no redirect yet |
| Api.ApiClient.AuthToken | src/lib/api.ts:126-129 | outside a browser there is no token; in a browser it is the stored `auth_token` |
| Api.ApiClient.CsrfToken | src/lib/api.ts:141-144 | outside a browser there is none; in a browser a non-empty meta `content` is returned; an absent or empty one counts as none |
| Api.ApiClient.SetAuthToken | src/lib/api.ts:146-148 | in a browser, a later read returns the token |
| Api.ApiClient.ClearAuth | src/lib/api.ts:150-152 | no token can be read afterwards |
| Api.ApiClient.Intercept | src/lib/api.ts:24-37 | the config's headers become `WithAuthHeaders` of the old ones |
| Api.CsrfHeaderFollowsMeta | src/lib/api.ts:31-34 | the interceptor adds X-CSRF-TOKEN iff a browser page carries a non-empty meta tag, and then with that tag's content |
| Api.ApiClient.HandleError | src/lib/api.ts:53-124 | the result is `Classify`; the token is cleared and "/login" is recorded iff the status is 401 in a browser |
| Api.ClearedClientAddsNoBearer | src/lib/api.ts:26-29 | after `clearAuth` the interceptor adds no Authorization header |
| QueryPolicy.Pow2 | src/lib/query-client.ts:16 | `2 ** a` is at least 1 |
| QueryPolicy.RetryDelay | src/lib/query-client.ts:16 | the delay lies between 1000 and 30000 ms |
| QueryPolicy.FirstDelay | src/lib/query-client.ts:16 | the first delay is 1000 ms |
| QueryPolicy.DelayMonotone | src/lib/query-client.ts:16 | the delay never decreases with the attempt |
| QueryPolicy.DelayCapped | src/lib/query-client.ts:16 | from attempt 5 on, the delay is exactly 30000 ms |
| QueryPolicy.DelayDoubles | src/lib/query-client.ts:16 | below the cap each delay doubles the previous one |
| QueryPolicy.ClientErrorsNeverRetried | src/lib/query-client.ts:9-27 | a status in [400, 500) is never retried, by queries or mutations |
| QueryPolicy.MutationRetryImpliesQueryRetry | src/lib/query-client.ts:9-27 | whatever a mutation retries, a query retries too |
| QueryPolicy.NetworkFailureRetried | src/lib/query-client.ts:9-27 | status 0 is retried while fewer than 3 (query) or 2 (mutation) failures |
| QueryPolicy.ResponseStatusDecidesRetry | src/lib/query-client.ts:9-14 | a classified response is retried iff its status is outside [400, 500) and the count is below 3 |
| QueryKeys.All | src/lib/query-keys.ts:9 | a namespace root has one element (the same for lines 17, 26, 34) |
| QueryKeys.Lists | src/lib/query-keys.ts:10 | `[entity, "list"]`, under the namespace root |
| QueryKeys.List | src/lib/query-keys.ts:11 | `lists()` plus the filters object |
| QueryKeys.Details | src/lib/query-keys.ts:12 | `[entity, "detail"]`, under the namespace root |
| QueryKeys.Detail | src/lib/query-keys.ts:13 | `details()` plus the id |
| QueryKeys.ProductCategories | src/lib/query-keys.ts:22 | `["products", "categories"]` |
| QueryKeys.AuthMe | src/lib/query-keys.ts:4 | `["auth", "me"]` |
| QueryKeys.AuthProfile | src/lib/query-keys.ts:5 | `["auth", "profile"]` |
| QueryKeys.Names | src/lib/query-keys.ts:42 | a base key of strings, element by element |
| QueryKeys.CreateQueryKey | src/lib/query-keys.ts:42-47 | the base key when filters are absent or empty, else the base key plus exactly one filters element |
| QueryKeys.ListsCoverEveryList | src/lib/query-keys.ts:10-11 | invalidating `lists()` reaches every `list(f)`, a strict extension |
| QueryKeys.ListsAndDetailsDisjoint | src/lib/query-keys.ts:10-13 | list and detail keys differ at index 1, so neither root reaches the other family |
| QueryKeys.DetailInjective | src/lib/query-keys.ts:13 | `detail(a) == detail(b)` iff a == b |
| QueryKeys.NamespacesDisjoint | src/lib/query-keys.ts:1-39 | keys of different namespaces (and auth) differ at index 0 |
| QueryKeys.BaseCoversCreatedKeys | src/lib/query-keys.ts:42-47 | the base key reaches every key `createQueryKey` builds from it |
| ApiErrorHook.MessageToasts | src/hooks/useApiError.ts:11-13 | one `"field: message"` toast per message, in list order |
| ApiErrorHook.FieldToastCount | src/hooks/useApiError.ts:10-14 | the number of `FieldToasts` is `MessageCount`, the sum of the message-list lengths |
| ApiErrorHook.FieldToastsAppend | src/hooks/useApiError.ts:10-14 | the toasts of consecutive runs of fields concatenate in order |
| ApiErrorHook.FieldToastOrder | src/hooks/useApiError.ts:10-14 | in `FieldToasts`, message j of field i is shown at position (messages before field i) + j, as "field: message" |
| ApiErrorHook.FieldToastsAreErrors | src/hooks/useApiError.ts:12 | every field toast is an error toast |
| ApiErrorHook.ErrorToastsShape | src/hooks/useApiError.ts:9-17 | `ErrorToasts`: a non-empty map gives as many toasts as messages, else exactly one toast with the message; all are error toasts |
| ApiErrorHook.EmptyListsShowNothing | src/hooks/useApiError.ts:9-14 | a non-empty map whose lists are all empty shows no toast at all |
| ApiErrorHook.ValidationResponseToasts | src/hooks/useApiError.ts:9-14 | a 422 whose object body holds a non-empty `errors` map is shown field by field |
| ApiErrorHook.OtherFailuresShowMessage | src/hooks/useApiError.ts:15-17 | every non-422 classified failure shows exactly its message |
| ApiErrorHook.HandleError | src/hooks/useApiError.ts:6-18 | the nested loops append exactly `ErrorToasts(e)` to the log |
| ApiErrorHook.HandleSuccess | src/hooks/useApiError.ts:20-22 | one success toast with the text |
| ApiErrorHook.HandleInfo | src/hooks/useApiError.ts:24-26 | one info toast with the text |
| ApiErrorHook.HandleWarning | src/hooks/useApiError.ts:28-30 | one warning toast with the text |
| Crud.DefaultSuccessMessage | src/hooks/useCrud.ts:72 | every mutation kind has a non-empty default success message (the texts of lines 72, 118 and 163) |
| Crud.Invalidations | src/hooks/useCrud.ts:86-88 | one invalidation per key, in order |
| Crud.SuccessEffects | src/hooks/useCrud.ts:80-91 | success toast first (iff shown, default on), then each key invalidated once in order, then the caller's `onSuccess`; no other toast |
| Crud.ErrorEffects | src/hooks/useCrud.ts:92-106 | toasts first (none when `showErrorToast` is false), then the caller's `onError` |
| Crud.CreateAndUpdateExpandFieldErrors | src/hooks/useCrud.ts:92-104 | create and update show one toast per field message |
| Crud.DeleteShowsOneToast | src/hooks/useCrud.ts:182-187 | delete shows one toast with `error.message` and never expands field errors |
| Crud.OnSuccess | src/hooks/useCrud.ts:80-91 | the handler's loop appends exactly `SuccessEffects` |
| Crud.OnError | src/hooks/useCrud.ts:92-106 | the handler appends exactly `ErrorEffects` |
| Crud.QueryOptions | src/hooks/useCrud.ts:47 | `showErrorToast` is removed; every other option is forwarded unchanged |
| Crud.UseGetConfig | src/hooks/useCrud.ts:47-53 | the query gets the key, the function and the forwarded options, which win on a clash |
| Crud.QueryOptionsIdempotent | src/hooks/useCrud.ts:47 | filtering twice forwards the same options |
| Crud.OnMutateCache | src/hooks/useCrud.ts:204-215 | the previous value is snapshotted; the optimistic value is written only over truthy data |
| Crud.OnErrorCache | src/hooks/useCrud.ts:216-221 | a truthy snapshot is restored; other keys are untouched |
| Crud.RollbackRestores | src/hooks/useCrud.ts:204-221 | onMutate followed by onError leaves the whole cache as it was |
| Crud.OptimisticWriteIsLocal | src/hooks/useCrud.ts:204-215 | the optimistic write touches no other key |
| Crud.OptimisticUpdate.OnMutate | src/hooks/useCrud.ts:204-215 | the cache and the returned snapshot are those of `OnMutateCache` |
| Crud.OptimisticUpdate.OnError | src/hooks/useCrud.ts:216-221 | the cache is `OnErrorCache`; then the caller's `onError` runs |
| Crud.OptimisticUpdate.OnSettled | src/hooks/useCrud.ts:222-224 | the key is invalidated |
| Crud.FailedOptimisticMutation | src/hooks/useCrud.ts:204-224 | a failed mutation ends with the original cache and the key invalidated last |
| ApiRequest.InitialState | src/hooks/useApi.ts:26-30 | `{data: null, loading: false, error: null}` |
| ApiRequest.Started | src/hooks/useApi.ts:36 | loading is on, the error is cleared, and the data is kept |
| ApiRequest.Settled | src/hooks/useApi.ts:39-53 | loading is off; success stores the result; failure stores the error and keeps the data |
| ApiRequest.Returned | src/hooks/useApi.ts:50-63 | the result on success, null on failure |
| ApiRequest.SettleEffects | src/hooks/useApi.ts:42-61 | `onSuccess` before the success toast (only with both flag and message); `onError` before the error toasts, which only `showErrorToast === false` suppresses |
| ApiRequest.SuccessfulExecute | src/hooks/useApi.ts:36-40 | after a success the state is exactly (result, not loading, no error) |
| ApiRequest.FailureKeepsLastData | src/hooks/useApi.ts:36-53 | a failure after a success keeps that success's data |
| ApiRequest.RestartClearsError | src/hooks/useApi.ts:36-53 | a new execute after a failure clears the error but keeps the data |
| ApiRequest.DefaultOptionsEffects | src/hooks/useApi.ts:46-61 | with no options, a success shows nothing and a failure shows the error toasts |
| ApiRequest.UseApi.constructor | src/hooks/useApi.ts:26-30 | the hook starts in the initial state |
| ApiRequest.UseApi.Begin | src/hooks/useApi.ts:36 | the state becomes `Started` of the old one |
| ApiRequest.UseApi.Settle | src/hooks/useApi.ts:38-64 | the state is settled, the effects are appended, and the result is returned |
| ApiRequest.UseApi.Execute | src/hooks/useApi.ts:34-67 | a completed execute is never loading and returns `Returned(outcome)` |
| ApiRequest.UseApi.Reset | src/hooks/useApi.ts:69-75 | restores exactly the initial state |
| FormUrlEncoded.SearchParams.Append | src/services/user.service.ts:70 | the pair is added at the end |
| FormUrlEncoded.SerializeEmpty | src/services/user.service.ts:74 | the serialization is empty iff nothing was appended |
| FormUrlEncoded.ParseSerialize | src/services/user.service.ts:66-74 | parsing the serialization gives back the UTF-8 bytes of each pair, in order |
| Http.FormDataBuilder.Append | src/services/user.service.ts:42-44 | the field is added at the end |
| UserService.QueryPairs | src/services/user.service.ts:66-73 | never more pairs than parameters |
| UserService.QueryPairsExactly | src/services/user.service.ts:66-73 | exactly the defined parameters are sent, as `String(value)`; none are sent iff all are undefined |
| UserService.QueryPairsSingle | src/services/user.service.ts:68-70 | one parameter gives one pair `(key, String(value))`, or none when it is undefined |
| UserService.QueryPairsAppend | src/services/user.service.ts:67-72 | pairs follow entry order: the pairs of two runs of parameters are the first's followed by the second's |
| UserService.UsersUrl | src/services/user.service.ts:74 | "/users" for an empty query, else "/users?" + query |
| UserService.GetUsers | src/services/user.service.ts:59-77 | the loop's query is the serialization of `QueryPairs`; an absent params object sends none |
| UserService.UsersUrlShape | src/services/user.service.ts:74 | the url is "/users" iff no parameter is defined, and its query parses back to the pairs |
| UserService.GetProfile | src/services/user.service.ts:31-34 | a GET of "/user/profile" returning `response.data` |
| UserService.ChangePassword | src/services/user.service.ts:53-56 | a JSON POST of the data to "/user/change-password" returning the whole envelope |
| UserService.UserUrl | src/services/user.service.ts:81 | "/users/" followed by the decimal id |
| UserService.GetUserById | src/services/user.service.ts:80-83 | a GET of the user's path returning `response.data` |
| UserService.DeleteUser | src/services/user.service.ts:104-107 | a DELETE of the user's path returning the whole envelope |
| UserService.UploadAvatar | src/services/user.service.ts:110-116 | a multipart POST of one "avatar" file field to "/user/avatar" |
| UserService.FormFields | src/services/user.service.ts:37-47 | at most one field per entry |
| UserService.FormFieldsExactly | src/services/user.service.ts:39-47 | exactly the entries that are neither undefined nor null become fields; files as files, the rest as `String(value)` |
| UserService.FormFieldsAppend | src/services/user.service.ts:39-47 | fields keep entry order |
| UserService.BuildForm | src/services/user.service.ts:37-47 | the loop builds exactly `FormFields(data)` |
| UserService.UserUrlInjective | src/services/user.service.ts:81 | `"/users/" + id` is distinct for distinct ids |
| UserService.UpdateProfile | src/services/user.service.ts:36-51 | a multipart POST of `FormFields` to "/user/profile" |
| UserService.UpdateUser | src/services/user.service.ts:86-101 | a multipart POST of `FormFields` to "/users/<id>" |
| UserService.OneUserOnePath | src/services/user.service.ts:81-105 | get and delete of one id share its path; different ids get different paths |
| UserService.EnvelopeOnlyForPasswordAndDelete | src/services/user.service.ts:31-116 | `changePassword` and `deleteUser` return the envelope; the others return `response.data` |
| UserService.UploadSendsOneField | src/services/user.service.ts:110-116 | the upload sends exactly one field, "avatar", holding the file, to "/user/avatar" |
| RoleApi.RoleQueryPairs | src/services/system-console/roles/role-api.ts:11-18 | never more pairs than filters |
| RoleApi.RoleQueryPairsExactly | src/services/system-console/roles/role-api.ts:14-18 | exactly the filters that are not undefined, null or "" are sent |
| RoleApi.RoleQueryPairsSingle | src/services/system-console/roles/role-api.ts:15-17 | one filter gives one pair, or none when it is undefined, null or "" |
| RoleApi.RoleQueryPairsAppend | src/services/system-console/roles/role-api.ts:14-18 | pairs follow entry order: the pairs of two runs of filters are the first's followed by the second's |
| RoleApi.ZeroAndFalseAreSent | src/services/system-console/roles/role-api.ts:15 | 0 and false are sent; "" and null are not |
| RoleApi.RolesUrl | src/services/system-console/roles/role-api.ts:20 | "/v2/roles?" followed by the query, even an empty one |
| RoleApi.GetRoles | src/services/system-console/roles/role-api.ts:11-22 | the loop's query is the serialization of `RoleQueryPairs` of the filters, `{}` by default |
| RoleApi.NothingKeptBareUrl | src/services/system-console/roles/role-api.ts:20 | with nothing to send the url is "/v2/roles?", keeping the "?" |
| RoleApi.RoleUrl | src/services/system-console/roles/role-api.ts:25 | "/v2/roles/" followed by the id |
| RoleApi.GetRoleById | src/services/system-console/roles/role-api.ts:24-27 | a GET of the role's path returning `response.data` |
| RoleApi.CreateRoleAsWritten | src/services/system-console/roles/role-api.ts:29-32 | as written, a JSON POST of the data to the literal "/${BASE_URL}" |
| RoleApi.CreateRole | src/services/system-console/roles/role-api.ts:29-32 | corrected, a JSON POST of the data to "/v2/roles" |
| RoleApi.RoleUrlInjective | src/services/system-console/roles/role-api.ts:25 | "/v2/roles/" + id is distinct for distinct ids |
| RoleApi.CreateRoleAsWrittenMissesCollection | src/services/system-console/roles/role-api.ts:30 | as written, createRole posts to "/${BASE_URL}" and not to "/v2/roles" |
| RoleApi.CreateRolePostsToCollection | src/services/system-console/roles/role-api.ts:29-32 | corrected, createRole posts to "/v2/roles", the list path without its query |
| RoleApi.Lookup | src/services/system-console/roles/role-api.ts:35 | the value of the first entry named `key`; `undefined` when there is none |
| RoleApi.WithoutKey | src/services/system-console/roles/role-api.ts:35 | the rest has no `key` entry, keeps every other entry, and adds none |
| RoleApi.WithoutKeyAppend | src/services/system-console/roles/role-api.ts:35 | the rest keeps entry order: dropping the key from two runs drops it from each |
| RoleApi.WithoutKeyAt | src/services/system-console/roles/role-api.ts:35 | dropping the one entry named `key` leaves exactly the entries before and after it |
| RoleApi.UpdateRole | src/services/system-console/roles/role-api.ts:34-38 | a PUT whose body has no `id` and keeps the rest; the path ends with `String(id)` |
| RoleApi.UpdateRoleRoutesById | src/services/system-console/roles/role-api.ts:34-38 | wherever `id` stands among the keys, the role is updated at "/v2/roles/<id>" and the body is every other entry, in order |
| RoleApi.RolePathsUnderBase | src/services/system-console/roles/role-api.ts:24-60 | get, update, delete, status and duplicate paths all start with "/v2/roles/" |
| RoleApi.DeleteRole | src/services/system-console/roles/role-api.ts:40-43 | a DELETE of the role's path returning `response.data` |
| RoleApi.GetPermissions | src/services/system-console/roles/role-api.ts:45-48 | a GET of "/permissions" |
| RoleApi.UpdateRoleStatus | src/services/system-console/roles/role-api.ts:50-56 | a PATCH of the role's path + "/status" with body `{ status }` |
| RoleApi.DuplicateRole | src/services/system-console/roles/role-api.ts:58-61 | a POST to the role's path + "/duplicate" with body `{ name }` |
| RoleApi.StatusAndDuplicateDiffer | src/services/system-console/roles/role-api.ts:50-60 | the status path and the duplicate path never coincide, whatever the ids |
| Maintenance.Middleware | middleware.ts:4-25 | unless the flag is exactly "true" every request passes; with it, a request passes iff its path starts with "/maintenance" or a static prefix; otherwise it is rewritten to "/maintenance" |
| Maintenance.RewriteIsFinal | middleware.ts:9-21 | the rewrite target passes, so the rule is idempotent |
| Maintenance.RawPrefixMatching | middleware.ts:9-15 | "/fontsX" and "/maintenance-old" pass; "/dashboard" is rewritten; flag "TRUE" is off |
| Maintenance.StaticPrefixPasses | middleware.ts:10-15 | any path below a static prefix passes |

## Left out

- Network I/O: the `get`, `post`, `put`, `patch`, `delete`, `upload` and `download` methods of `ApiClient` (src/lib/api.ts:154-220), the axios instance and every `await`.
  - A service method becomes the `Call` it hands to the client: verb, path, body, and envelope or `data`.
  - An awaited request becomes an `Outcome` given as a parameter.
- `console.error` logging (useApiError.ts, query-client.ts) has no observable effect here.
- The mutation-defaults `onError` (query-client.ts:33-38) only logs, so it is left out.
- Staleness, GC time and refetch flags of query-client.ts are library configuration, so they are left out.
- Debounce timing: the debounced search is a pending slot. `DebounceElapsed` delivers it, and a later keystroke replaces it.
  - Cancelling on unmount is not modelled; the 500 ms value plays no role.
  - The callback uses the latest props.
- TanStack Table internals are given as inputs or left out, because their code is not part of this model:
  - `getCanNextPage`, `getCanPreviousPage`, `setPageSize`, `previousPage` and `nextPage`;
  - what `resetColumnFilters` passes to the handler (taken to be the empty list);
  - `getSelectedRowIds` and `getSelectedRows` (`getFilteredSelectedRowModel`);
  - `getRowId`, row models, `flexRender`, and column accessors.
- `cancelQueries` and every overlap of concurrent requests: each protocol is a sequence of steps.
- QueryKeys.Invalidates: compares key elements whole. TanStack's partial matching lets a filters object in the invalidation key also match any cached object that contains its properties; keys built by these hooks never rely on that.
- Cache semantics: `setQueryData` with `undefined` leaves the entry unchanged, as TanStack Query does. `invalidateQueries` is recorded, not executed.
- TanStack calls the caller's own `onSuccess` directly on an optimistic update, so only the three handlers `useOptimisticUpdate` installs are modelled.
- `useGetPaginated` is exactly `useGet` with its arguments forwarded, so it has no member of its own.
- The caller's callbacks are assumed not to throw. In useApi.ts, a throwing `onSuccess` would land in the `catch` branch.
- JavaScript numbers are integers here. Page/limit values that are not numbers are read as absent rather than coerced. `2 ** a` is exact.
- Strings are sequences of Unicode scalar values. A lone UTF-16 surrogate, which `URLSearchParams` replaces with U+FFFD, cannot occur.
- FormUrlEncoded.ParseSerialize: the parse-back stops at UTF-8 bytes. UTF-8 decoding back to strings is not modelled.
- Api.Classify:
  - a response body is a string, an object with optional string `message`/`error`/`errors`, or anything else;
  - arrays and message values that are not strings are not distinguished;
  - `errors` is a list of field → messages entries.
- Browser state is given as inputs: `typeof window`, local storage, the CSRF meta tag and `window.location.href` (recorded as a list of redirects).
- Two quirks in code outside this model are noted only:
  - src/hooks/system-console/roles/useRole.ts:7-8 puts `params` in the query key but calls `getRoles()` without them;
  - src/hooks/useAuth.ts:75 reads `error.response?.status`, which the classified error does not carry.
- React rendering, icons, layout and pages other than the table view are out of scope.

## Findings

| source | as written | input that shows it | evidently intended | confidence | as-written member | corrected member |
|---|---|---|---|---|---|---|
| src/services/system-console/roles/role-api.ts:30 | `createRole` posts to the double-quoted string "/${BASE_URL}", which is not interpolated | any `createRole(data)` call: the path is the literal "/${BASE_URL}" | a template literal, posting to "/v2/roles" like the other methods | high (not executed) | RoleApi.CreateRoleAsWrittenMissesCollection | RoleApi.CreateRolePostsToCollection |
