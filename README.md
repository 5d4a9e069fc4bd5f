# creditjambo-admin frontend core, modelled in Dafny

This project models the logic of the credit-jambo administrator dashboard frontend:

- **Pagination**: the pagination bar. It computes the "showing X to Y" item range, the window of page numbers with ellipses, and the button styles and click targets.
- **Api**: the axios interceptors.
  - The request side attaches the stored access token as a bearer header.
  - The response side handles a 401 with a single token refresh, during which the other failed requests wait in a queue.
  - `parseApiError` / `handleApiError` pick the error message to show.
- **Storage**: the `localStorage` wrapper for the token pair and the serialized user.
- **Customers**, **Transactions** and **Devices**: the list hooks, with their filter state, their handlers and the query each list is fetched with. Devices also has the client-side search and the rule that hides administrators' devices.
- **Theme**: the light/dark theme provider. It chooses the initial theme, shows it on the document root's class list, stores it, and toggles or sets it.
- **Formatters**: `cn`, which joins class names.

Three helper modules are each stated once, with their own lemmas:

- `Wrappers` holds `Option`, which stands for a TypeScript value that may be `null` or `undefined`.
- `Seqs` holds `Array.prototype.filter`.
- `Strings` holds `String.prototype.startsWith`, `includes` and `toLowerCase`, and `Array.prototype.join` on strings.
  - It also holds `Split`. No code in the core calls it; it is the inverse of `join` that the `Formatters.CnTokens` round trip reads the result of `cn` back with.

Two kinds of code get two kinds of model:

- Code that only computes becomes functions and lemmas.
- Module state that the source updates in place becomes classes whose methods are proved to move their state exactly as a pure transition function says:
  - the interceptors' `isRefreshingToken` and `requestQueue`;
  - `localStorage`;
  - the document root's class list;
  - the React state of the hooks and the theme provider.

The pure transition functions carry the invariants and the lemmas.

The asynchronous refresh is split at its one `await` into two events:

- `Api.OnResponseError` runs when a response fails.
- `Api.OnRefreshResponse` runs when the refresh call comes back.

Resolving or rejecting a queued promise is recorded in a log of settlements. The continuation that a waiter then runs is `Api.WaiterContinuation`.

## Model

| member | source | states |
|---|---|---|
| Formatters.SurvivorsSoundAndComplete | frontend/src/utils/formatters.ts:46-48 | a class name is kept by `cn` exactly when it was passed as a non-empty string |
| Formatters.CnEmptyIff | frontend/src/utils/formatters.ts:46-48 | `cn` yields the empty string exactly when no argument is a non-empty string |
| Formatters.CnLength | frontend/src/utils/formatters.ts:46-48 | the result's length is the total length of the kept names plus one space between each pair |
| Formatters.CnSingle | frontend/src/utils/formatters.ts:46-48 | a single class name comes back unchanged |
| Formatters.CnConcat | frontend/src/utils/formatters.ts:46-48 | `cn(a..., b...)` is `cn(a...)` and `cn(b...)` joined by a space when both keep a class, and whichever keeps one otherwise |
| Formatters.CnTokens | frontend/src/utils/formatters.ts:46-48 | splitting the result at spaces gives back exactly the kept class names, when none contains a space |
| Pagination.CalculateItemRange | frontend/src/components/ui/Pagination.tsx:24-28 | the first item shown is `(page-1)*perPage+1`; the last is the smaller of `page*perPage` and the total |
| Pagination.ItemRangeOfPopulatedPage | frontend/src/components/ui/Pagination.tsx:24-28 | on a page that has items, the range is non-empty, starts after the previous pages and holds at most `perPage` items |
| Pagination.ItemRangesTile | frontend/src/components/ui/Pagination.tsx:24-28 | the next page's range starts right after a full page's range ends |
| Pagination.GeneratePageNumbers | frontend/src/components/ui/Pagination.tsx:30-63 | the loops produce exactly the page list that `PageNumbers` specifies, for every input |
| Pagination.SmallPageCountListsEveryPage | frontend/src/components/ui/Pagination.tsx:33-38 | with at most 5 pages, every page 1..total is listed in order, with no ellipsis |
| Pagination.WindowAtStart | frontend/src/components/ui/Pagination.tsx:40-45 | near the start the list is 1,2,3,4,…,last |
| Pagination.WindowAtEnd | frontend/src/components/ui/Pagination.tsx:46-51 | near the end the list is 1,…,last-3..last |
| Pagination.WindowInMiddle | frontend/src/components/ui/Pagination.tsx:52-60 | elsewhere the list is 1,…,current-1,current,current+1,…,last |
| Pagination.LargePageCountWindow | frontend/src/components/ui/Pagination.tsx:39-62 | with more than 5 pages the list is faithful: the numbers are in range and strictly increasing, the first and last pages are always shown, the current page is shown whenever it exists, and the list has 6 or 7 entries |
| Pagination.HandlePageClick | frontend/src/components/ui/Pagination.tsx:75-79 | a click requests a page exactly when the item is a number, and requests that number |
| Pagination.Render | frontend/src/components/ui/Pagination.tsx:88-131 | nothing is rendered exactly when there is at most one page. Otherwise: the shown range is `calculateItemRange`'s; the previous arrow is disabled exactly on page 1 and the next arrow exactly on the last page; button i carries generated item i, is disabled exactly when it is the ellipsis, and has that item's look |
| Pagination.EnabledControlsStayInRange | frontend/src/components/ui/Pagination.tsx:104-131 | every enabled control requests a page between 1 and the page count, given a current page in that range; ellipsis buttons are disabled |
| Pagination.StyleClasses | frontend/src/components/ui/Pagination.tsx:65-73 | each look's class string is the base page-button styles, one space, then that look's own styles (active, ellipsis or inactive) |
| Pagination.ExactlyOneActiveButton | frontend/src/components/ui/Pagination.tsx:65-73 | exactly one page button has the active style, the current page's |
| Storage.WithTokens | frontend/src/services/storage.ts:33-36 | both tokens are stored and every other key is unchanged |
| Storage.WithoutTokens | frontend/src/services/storage.ts:46-49 | both token keys are absent and every other key is unchanged |
| Storage.WithUser | frontend/src/services/storage.ts:51-54 | the serialized user is stored and every other key is unchanged |
| Storage.WithoutUser | frontend/src/services/storage.ts:65-67 | the user key is absent and every other key is unchanged |
| Storage.Cleared | frontend/src/services/storage.ts:69-72 | the three session keys are absent and every other key (such as the theme) is unchanged |
| Storage.UserFrom | frontend/src/services/storage.ts:56-63 | a missing or empty stored user reads as none; otherwise the result is what the JSON parser gives, with a parse failure reading as none |
| Storage.SavedUserReadsBack | frontend/src/services/storage.ts:21-31 | a saved user reads back, also after saving or clearing tokens, given a codec whose parse inverts its stringify |
| Storage.LocalStorage.SaveTokens | frontend/src/services/storage.ts:33-36 | the new table is `WithTokens` of the old; the getters return the new tokens; the user is untouched |
| Storage.LocalStorage.ClearTokens | frontend/src/services/storage.ts:46-49 | the new table is `WithoutTokens` of the old; the getters return none; the user is untouched |
| Storage.LocalStorage.SaveUser | frontend/src/services/storage.ts:51-54 | the new table is `WithUser` of the old; the tokens are untouched |
| Storage.LocalStorage.ClearUser | frontend/src/services/storage.ts:65-67 | the new table is `WithoutUser` of the old; `getUser` returns none for any codec; the tokens are untouched |
| Storage.LocalStorage.ClearAll | frontend/src/services/storage.ts:69-72 | the new table is `Cleared` of the old; every getter returns none |
| Api.BearerRoundTrip | frontend/src/services/api.ts:27 | the token can be read back unchanged from the bearer header built for it |
| Api.WithAuthHeader | frontend/src/services/api.ts:22-30 | a stored non-empty access token is sent as the bearer header; otherwise the request is unchanged; url and retry mark are never touched |
| Api.Interceptor.AttachAuthToken | frontend/src/services/api.ts:22-30 | the method returns `WithAuthHeader` of the request and the stored table |
| Api.AuthEndpointUrls | frontend/src/services/api.ts:53-55 | a missing url is not an auth endpoint; a present url is one exactly when the login or the refresh path occurs in it, so any url embedding either path is one and any other url is not |
| Api.SettleAll | frontend/src/services/api.ts:42-51 | every queued waiter gets the same settlement, in queue order |
| Api.Interceptor.ProcessRequestQueue | frontend/src/services/api.ts:42-51 | the loop settles each waiter in order and leaves the state `Drain` specifies: an empty queue, with nothing else changed |
| Api.Interceptor.RedirectToLogin | frontend/src/services/api.ts:57-60 | the session keys are cleared and the location becomes the login route |
| Api.Interceptor.QueueFailedRequest | frontend/src/services/api.ts:62-69 | one waiter with a fresh id is appended to the queue, and its promise is pending |
| Api.Interceptor.RefreshAccessToken | frontend/src/services/api.ts:71-100 | the state and outcome are those of `StartRefresh`: the refresh call is sent with the stored token, or the session ends when none is stored. This is the corrected path, which also clears the flag when no token is stored; see ## Findings |
| Api.Interceptor.HandleUnauthorizedError | frontend/src/services/api.ts:102-122 | the state and outcome are those of `OnResponseError`, whose refresh start is the corrected path; see ## Findings |
| Api.Interceptor.CompleteRefresh | frontend/src/services/api.ts:80-99 | the state and outcome are those of `OnRefreshResponse` |
| Api.InitialIsValid | frontend/src/services/api.ts:39-40 | the module starts in a state satisfying the interceptor invariant |
| Api.ResponseErrorKeepsValid | frontend/src/services/api.ts:102-122 | handling any failed response keeps the invariant: the flag is set exactly while a refresh is in flight, no one waits without one, and waiters are settled at most once |
| Api.RefreshResponseKeepsValid | frontend/src/services/api.ts:80-99 | the refresh coming back, successfully or not, keeps the invariant |
| Api.DrainKeepsIdsIncreasing | frontend/src/services/api.ts:42-51 | draining the queue keeps settlement ids strictly increasing and below the next id |
| Api.ResponseErrorRouting | frontend/src/services/api.ts:102-122 | covers every kind of failed response: non-401s and retried requests are rejected untouched; a 401 from an auth endpoint ends the session; a 401 during a refresh is queued; any other 401 starts one refresh, or ends the session if no refresh token is stored. On that last route the flag is cleared, which is the corrected path; see ## Findings |
| Api.RefreshSettlesEveryWaiter | frontend/src/services/api.ts:80-99 | every waiter is settled exactly once, in queue order, and the flag is cleared. On success the tokens are saved; the request whose 401 started the refresh is resent with the new bearer header, and each waiter resends its own request with that header. On failure all waiters are rejected with the refresh error and the session ends |
| Api.AsWrittenMissingTokenStrandsWaiters | frontend/src/services/api.ts:71-78 | as written, a missing refresh token leaves the flag set with no refresh in flight, so a later 401 is queued and never settled |
| Api.CorrectedMissingTokenResetsFlag | frontend/src/services/api.ts:71-100 | with the flag cleared on that path too, the invariant holds and a later 401 is not stranded |
| Api.ApiErrorPriority | frontend/src/services/api.ts:126-157 | the message is chosen in priority order: network failure, then the body's message, then the field messages joined by ", " in order (the first opens the text, and the length is theirs plus two per separator), then the error's own message, then the default; a non-axios error gives the default |
| Api.EmptyMessageIff | frontend/src/services/api.ts:129-157 | the shown message is empty exactly when the only source left is a single field error whose message is empty |
| Customers.SortOrder.Flipped | frontend/src/hooks/useCustomers.ts:46 | the flipped order always differs from the current one |
| Customers.SortAfterClick | frontend/src/hooks/useCustomers.ts:43-53 | the clicked column becomes the sort column; the same column flips direction; a new column sorts descending |
| Customers.SortClicks | frontend/src/hooks/useCustomers.ts:43-53 | two clicks on the sorted column restore the sort; a new column clicked twice ends up ascending |
| Customers.QueryFor | frontend/src/hooks/useCustomers.ts:16-27 | the query has the page and a limit of 10; the search is left out exactly when empty; the status is left out exactly when it is 'all' |
| Customers.QueryDeterminesState | frontend/src/hooks/useCustomers.ts:16-27 | the filter state can be read back from the query, so distinct states are never fetched with the same query |
| Customers.CustomerList.constructor | frontend/src/hooks/useCustomers.ts:10-14 | the list starts on page 1, with no search, every status, sorted by creation date descending |
| Customers.CustomerList.HandlePageChange | frontend/src/hooks/useCustomers.ts:29-31 | only the page changes |
| Customers.CustomerList.HandleSearchChange | frontend/src/hooks/useCustomers.ts:33-36 | the search changes and the page goes back to 1 |
| Customers.CustomerList.HandleStatusFilterChange | frontend/src/hooks/useCustomers.ts:38-41 | the status filter changes and the page goes back to 1 |
| Customers.CustomerList.HandleSortChange | frontend/src/hooks/useCustomers.ts:43-53 | the sort changes as `SortAfterClick` says, and the page and filters are kept |
| Wrappers.ListOrEmpty | frontend/src/hooks/useTransactions.ts:59 | the returned list is the fetched list once data has arrived and the empty list while there is none (the same fallback as useCustomers.ts line 56) |
| Transactions.QueryFor | frontend/src/hooks/useTransactions.ts:27-37 | the query has the page and a limit of 10; the type is left out exactly when it is 'all' |
| Transactions.QueryDeterminesState | frontend/src/hooks/useTransactions.ts:27-37 | the filter state can be read back from the query |
| Transactions.TransactionList.constructor | frontend/src/hooks/useTransactions.ts:21-25 | the list starts on page 1, with every type and the default date range |
| Transactions.TransactionList.HandlePageChange | frontend/src/hooks/useTransactions.ts:39-41 | only the page changes |
| Transactions.TransactionList.HandleTypeFilterChange | frontend/src/hooks/useTransactions.ts:43-46 | the type filter changes and the page goes back to 1 |
| Transactions.TransactionList.HandleStartDateChange | frontend/src/hooks/useTransactions.ts:48-51 | the start date changes and the page goes back to 1 |
| Transactions.TransactionList.HandleEndDateChange | frontend/src/hooks/useTransactions.ts:53-56 | the end date changes and the page goes back to 1 |
| Devices.SearchSoundCompleteOrdered | frontend/src/hooks/useDevices.ts:8-21 | an empty search returns the list unchanged; otherwise a device is kept exactly when it is not an administrator's and its id, email or name contains the search, ignoring case; order is kept |
| Devices.SearchIdempotent | frontend/src/hooks/useDevices.ts:8-21 | searching twice with the same text equals searching once |
| Devices.FilteredDevicesSpec | frontend/src/hooks/useDevices.ts:37-41 | nothing is listed without data; no administrator's device is ever listed, even with an empty search; a fetched device is listed exactly when it is not an administrator's and matches; order is kept |
| Devices.DeviceList.Listed | frontend/src/hooks/useDevices.ts:86 | the returned devices are none without data and never an administrator's; otherwise they are, in fetched order, exactly the non-admin devices that the current search matches |
| Devices.TotalOrZero | frontend/src/hooks/useDevices.ts:87 | the total is the reported one once data has arrived, and zero while there is none |
| Devices.QueryFor | frontend/src/hooks/useDevices.ts:29-35 | the verification filter is sent unless it is 'all' |
| Devices.DeviceList.constructor | frontend/src/hooks/useDevices.ts:26-27 | the list starts with no search and every device |
| Devices.DeviceList.HandleSearchChange | frontend/src/hooks/useDevices.ts:63-65 | only the search changes, and the fetched query is the same |
| Devices.DeviceList.HandleVerifiedFilterChange | frontend/src/hooks/useDevices.ts:67-69 | only the verification filter changes |
| Theme.ParseTheme | frontend/src/contexts/ThemeContext.tsx:11-13 | a stored value names a theme exactly when it is 'light' or 'dark', and it names the theme whose class it is |
| Theme.ParseStoredTheme | frontend/src/contexts/ThemeContext.tsx:11-13 | what is persisted for a theme reads back as that theme |
| Theme.InitialThemeCases | frontend/src/contexts/ThemeContext.tsx:15-26 | the initial theme is the stored one when a valid theme is stored in a browser window; otherwise it is light |
| Theme.LogoutKeepsTheme | frontend/src/contexts/ThemeContext.tsx:15-26 | logging out (clearing the session keys) does not change the initial theme |
| Theme.Opposite | frontend/src/contexts/ThemeContext.tsx:38-40 | the opposite theme differs from the current one |
| Theme.OppositeInvolution | frontend/src/contexts/ThemeContext.tsx:38-40 | toggling twice gives back the original theme |
| Theme.AppliedThemeIsExclusive | frontend/src/contexts/ThemeContext.tsx:28-32 | after applying a theme, its class is present once, at the end; the other theme's class is absent; every other class is kept in order |
| Theme.LastAppliedWins | frontend/src/contexts/ThemeContext.tsx:28-32 | applying two themes in a row leaves the document as if only the second had been applied |
| Theme.DocumentRoot.ApplyTheme | frontend/src/contexts/ThemeContext.tsx:28-32 | the class list becomes `Applied` of the old one |
| Theme.ThemeProvider.PersistTheme | frontend/src/contexts/ThemeContext.tsx:34-36 | the storage maps the theme key to the theme's name, and every other key is unchanged |
| Theme.ThemeProvider.constructor | frontend/src/contexts/ThemeContext.tsx:42-54 | after the first render's effects, the theme is the initial theme, the document shows it and storage holds it |
| Theme.ThemeProvider.ToggleTheme | frontend/src/contexts/ThemeContext.tsx:56-58 | the theme becomes its opposite, and it is shown and stored |
| Theme.ThemeProvider.SetTheme | frontend/src/contexts/ThemeContext.tsx:60-62 | a different theme is shown and stored; the same theme changes nothing; the shown-and-stored invariant is kept |

## Left out

- The refresh state machine (`Api.OnResponseError`, `Api.StartRefresh` and the `Api.Interceptor` methods that follow them) models the corrected flow. There the flag is cleared when no refresh token is stored. Only `Api.StartRefreshAsWritten` models the code as written, where the flag stays set (see ## Findings).
- `Theme.DocumentRoot`: the class list is a sequence taken to be duplicate-free, as a browser keeps it. A repeated non-theme class is kept by `Theme.Applied` as it is, which a browser would never hold.
- JSX markup, icons, layout and the "Showing X to Y of Z results" text are not modelled. Only the values they display are.
- axios itself is not modelled: instances, the base URL, the 30-second timeout, the JSON content type, promises, and sending a request.
  - Sending and re-sending a request become `Outcome` values.
  - The refresh call's result is a parameter of `Api.OnRefreshResponse`.
  - A refresh reply that lacks its `data` throws inside the `try`, and is modelled as `RefreshFailed`.
- Requests are modelled as values. The source mutates the same config object when it marks `_retry` and sets the header. Only the final values are kept, not the aliasing.
- `Api.HandleApiError`: a response body whose `errors` field is not an array is treated as having no field errors, as the `Array.isArray` check does. A missing body is treated as having neither a message nor field errors.
- Rejecting a queued waiter with a falsy error value is not modelled. The source resolves such a waiter instead. The refresh error is always a thrown error object.
- `window.location.href` is a field of the state. The full page load that follows, which discards all module state, is not modelled.
- `JSON.stringify` and `JSON.parse` are a `UserCodec` parameter. A failing parse is `None`.
- `Strings.ToLower` lower-cases ASCII letters only. JavaScript's `toLowerCase` also maps other Unicode letters.
- `getDefaultDateRange` reads the clock. The default dates are therefore a parameter of `Transactions.TransactionList.constructor`.
- The hooks' fetched data is not part of their classes. The fallbacks that read it are stated on their own:
  - `Wrappers.ListOrEmpty` covers `data?.customers || []` and `data?.transactions || []`.
  - `Devices.TotalOrZero` covers `data?.total || 0`.
  - `Devices.DeviceList.Listed` covers the returned devices.
  - `data?.pagination` is passed on as it is, undefined without data, and is not modelled.
- Query caching, loading and error flags, and query keys (react-query) are not modelled.
- The device verify and unverify mutations and their cache invalidation are not modelled. They only call a service and refresh the list.
- The other formatters (currency, dates, numbers) rely on `Intl` and are not modelled. So are `useAnalytics` and the service wrappers.
- `Theme.ThemeProvider.constructor` models the mount effects in React's order. During mount the second effect briefly shows and stores light before the stored theme takes over again. The outcome is the same, as the contract states.
- Server rendering is not modelled: no effect runs without a window. `Theme.StoredTheme` keeps the no-window case, and the mount uses the window case.

## Findings

| source | as written | input that shows it | evidently intended | confidence | as-written member | corrected member |
|---|---|---|---|---|---|---|
| frontend/src/services/api.ts:71-100 | when no refresh token is stored, `refreshAccessToken` returns before its `try`/`finally`, so `isRefreshingToken` stays `true` | a 401 on a non-auth url with no refresh token stored, followed by another 401 before the login page has loaded: the second request is queued and, with no refresh in flight, never settled (the navigation to the login route usually hides this) | the flag is cleared on every path out of a refresh attempt | not executed | Api.StartRefreshAsWritten | Api.StartRefresh |
