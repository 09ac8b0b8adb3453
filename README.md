# OVH account session manager — a Dafny model

This project models the credential and account session manager of the web
front end. That is the `API_Provider` React context in
`src/context/APIContext.tsx`, plus the account page built on it in
`src/pages/APIAccountsPage.tsx`.

The provider holds several fields:

- the legacy credential set (`appKey`, `appSecret`, `consumerKey`, `endpoint`, `iam`, `zone`);
- the Telegram fields;
- the loading and authenticated flags;
- the account list, the current account id and the per-account status map;
- the browser's local store (`api_secret_key`, `current_account_id`).

Its operations are boot (`loadAPIKeys`), `checkAuthentication`, `setAPIKeys`,
`setCurrentAccount`, `refreshAccounts` and `refreshAccountStatuses`. The page
adds saving, deleting and making an account the default, filling and
resetting the form, the `OVH-Query-ID:` error formatter and the status badge.

The model is written in the code's own form:

- **Provider state as a class.** `ApiContext.ApiProvider` is a class whose fields are the provider's state. Each method is proved against a transition function on a value, `AuthSession.Session`: `State() == F(old(State()), ...)`. The lemmas and the `ensures` of those functions state what the source promises.
- **Page state as a class.** `AccountsPage.Page` holds the form, the saving flag and the edited id. Its methods are proved against page-level functions on the same session value.
- **Remote calls as inputs.** Each remote call is an input `Outcome`: either `Ok(response)` or `Fail(RemoteError(responseError, message))`. The two strings of `RemoteError` are `e.response.data.error` and `e.message`.
- **Three logs instead of effects.** The auth-changed event bus (`apiEvents.emitAuthChanged`, src/context/APIContext.tsx:11-13) is the append-only log `events`. Every HTTP request is appended to `requests`. Every notification is appended to `toasts`. "Exactly one `true` emitted" and "no request sent" can therefore be stated.
- **Absent values as `""`.** A JavaScript `undefined` or `null` string is the empty string. `Wrappers.Or` is JavaScript's `a || b` on strings.
- **The status map built by a loop.** It is filled in place by `for` loops in `StatusMap.BuildStatusMap`. That method is proved equal to the specification function `StatusMap.StatusMapAfter`.

Modules follow the files:

| module | file | contents |
|---|---|---|
| `Wrappers` | `wrappers.dfy` | `Option`, `Outcome`, `RemoteError`, error-message fallbacks |
| `Records` | `records.dfy` | settings, accounts, statuses, requests and toasts |
| `StatusMap` | `status_map.dfy` | `refreshAccountStatuses`' dictionary construction |
| `AuthSession` | `session.dfy` | the provider's state as a value, one transition function per operation |
| `ApiContext` | `provider.dfy` | the provider class |
| `QueryId` | `query_id.dfy` | the regular expression `/OVH-Query-ID:\s*([^\s]+)/` and the save-error text |
| `AccountForm` | `account_form.dfy` | form defaults, identity resolution, payload, badge |
| `AccountsPage` | `accounts_page.dfy` | the page's handlers and the page class |

In these places the code does something a reader might not expect, and the model follows it:

- `refreshAccounts` adopts a stored current id without checking that the fetched list contains it (`AuthSession.RefreshAdoptsUnlistedStoredId`).
- The status probe never singles out accounts without a complete credential triple. An empty response or a failed call marks every known account, incomplete ones included (`StatusMap.EveryKnownAccountMarked`). A non-empty response gives an entry to whatever the backend reports. Only the badge treats incomplete accounts apart: it shows "未配置" for them and ignores the map. In a response that reports only the complete accounts, an incomplete one has no entry at all (`AccountForm.ThreeAccountScenario`).
- There is no two-phase rollback of `setCurrentAccount`: the new id stays even when verification fails.
- Stale status responses are not sequenced or discarded.

## Model

| member | source | states |
|---|---|---|
| Wrappers.ErrorText | src/context/APIContext.tsx:129 | the message of a rejection is the server's error if non-empty; when that is empty it is the client message if non-empty, else the fallback; it is non-empty when the fallback is |
| Records.WithDefaults | src/context/APIContext.tsx:169-187 | the credential triple is copied; endpoint, iam and zone are kept when non-empty and otherwise become `ovh-eu`, `go-ovh-ie`, `IE`; the Telegram fields default to the empty string |
| StatusMap.Coerced | src/context/APIContext.tsx:118 | an entry is valid exactly when the item says `valid: true`; a missing `valid` gives false; the item's error is copied |
| StatusMap.StatusMapAfter | src/context/APIContext.tsx:114-131 | non-empty response: keys are exactly the reported non-empty ids, each valued by its last report, with `valid` coerced to a boolean and `error` copied; empty response: every known account is marked `{false, 状态不可用}`; failure: every known account is marked invalid with the rejection's message, falling back to `检查失败` |
| StatusMap.BuildStatusMap | src/context/APIContext.tsx:116-131 | the map that the in-place loops fill equals `StatusMapAfter` for every response and account list |
| StatusMap.FromItemsSpec | src/context/APIContext.tsx:117-119 | the map from the items has a key exactly for each item with a non-empty id, and its value is that id's last report |
| StatusMap.MarkedSpec | src/context/APIContext.tsx:121-123 | marking the accounts adds exactly their ids, all with the given status, and keeps the other keys |
| StatusMap.UnreportedAccountHasNoEntry | src/context/APIContext.tsx:117-120 | a known account the non-empty response does not report gets no entry |
| StatusMap.EveryKnownAccountMarked | src/context/APIContext.tsx:120-130 | after an empty or failed probe every known account has an invalid entry with the fixed message |
| StatusMap.NoAccountsNoEntries | src/context/APIContext.tsx:120-131 | with no known account an empty or failed probe leaves an empty map |
| StatusMap.LaterReportWins | src/context/APIContext.tsx:117-118 | two reports for the same id leave the later one |
| AuthSession.Initial | src/context/APIContext.tsx:54-66 | on mount: loading, unauthenticated, no accounts, no current id, an empty status map, nothing emitted, sent or notified, the legacy fields at their defaults, the store as given |
| AuthSession.Boot | src/context/APIContext.tsx:70-107 | no stored secret: no request, no emission, only loading clears; otherwise one settings request; rejection: unauthenticated and one `false` emitted; success: the Telegram fields are always loaded; with an `appKey`, the legacy fields with defaults, authenticated and exactly one `true`; without one, auth and emissions untouched; loading false in every case |
| AuthSession.BootWithoutSecret | src/context/APIContext.tsx:62-63 | booting a fresh provider without a stored secret sends nothing, emits nothing, ends not loading and unauthenticated |
| AuthSession.Verdict | src/context/APIContext.tsx:210-218 | the verdict is the backend's `valid` when the verification resolves, and false when it rejects |
| AuthSession.Checked | src/context/APIContext.tsx:202-221 | sends the legacy fields, sets the authenticated flag to the reported verdict (false on rejection), emits exactly that verdict and changes nothing else, the loading flag included |
| AuthSession.CurrentSet | src/context/APIContext.tsx:223-236 | the id is made current and persisted before the verification and kept whatever it says; one verification; the success or the warning notification |
| AuthSession.StatusesRefreshed | src/context/APIContext.tsx:112-133 | one status request; the map is replaced by `StatusMapAfter` of the response and the known accounts; nothing else changes |
| AuthSession.StatusRefreshReplacesWholesale | src/context/APIContext.tsx:125 | the refreshed map does not depend on the map before |
| AuthSession.ChosenId | src/context/APIContext.tsx:140-141 | the stored id when non-empty, else the first listed id, else the empty string |
| AuthSession.Refreshed | src/context/APIContext.tsx:135-153 | list rejected: no accounts, current id and store unchanged, only the list request; otherwise the list is taken, a non-empty chosen id is made current and persisted and triggers exactly one verification, which decides the authenticated flag (untouched without a chosen id), then the status refresh runs in every case |
| AuthSession.RefreshKeepsCurrent | src/context/APIContext.tsx:140-146 | a refresh never replaces a persisted non-empty current id |
| AuthSession.RefreshAdoptsUnlistedStoredId | src/context/APIContext.tsx:141 | a stored id absent from the fetched list still becomes current |
| AuthSession.KeysSet | src/context/APIContext.tsx:166-199 | the keys are posted with defaults; success: the fields take them, authenticated, one `true`, success notification; failure: fields, auth and emissions unchanged, error notification; loading false after either |
| ApiContext.ApiProvider.constructor | src/context/APIContext.tsx:53-66 | the provider starts in `Initial` over the given store |
| ApiContext.ApiProvider.LoadApiKeys | src/context/APIContext.tsx:70-107 | the fields after boot are `Boot` of the fields before |
| ApiContext.ApiProvider.RefreshAccountStatuses | src/context/APIContext.tsx:112-133 | the fields after are `StatusesRefreshed` of the fields before |
| ApiContext.ApiProvider.RefreshAccounts | src/context/APIContext.tsx:135-153 | the fields after are `Refreshed` of the fields before |
| ApiContext.ApiProvider.SetApiKeys | src/context/APIContext.tsx:166-199 | the fields after are `KeysSet` of the fields before; the save's error is rethrown exactly when the save failed |
| ApiContext.ApiProvider.CheckAuthentication | src/context/APIContext.tsx:202-221 | the fields after are `Checked` of the fields before; the result is the verdict and equals the authenticated flag |
| ApiContext.ApiProvider.SetCurrentAccount | src/context/APIContext.tsx:223-236 | the fields after are `CurrentSet` of the fields before |
| AccountForm.FilledFrom | src/pages/APIAccountsPage.tsx:37-48 | the fields are copied; the endpoint defaults to `ovh-eu` and the zone to `IE`; the credential triple is complete exactly when the account's is |
| AccountForm.FilledFromIdempotent | src/pages/APIAccountsPage.tsx:37-53 | filling twice is filling once; the blank form of reset and mount is such a fixed point and has no credentials |
| AccountForm.ResolvedIdentity | src/pages/APIAccountsPage.tsx:63-76 | a successful reply gives id = customer code, else nic handle, else empty, and alias = email, else that id; a non-success reply or a rejection keeps the form's id and alias |
| AccountForm.ResolveRequest | src/pages/APIAccountsPage.tsx:66-71 | the resolve request carries the form's credential triple and its endpoint, defaulted to `ovh-eu` when empty |
| AccountForm.SavePayload | src/pages/APIAccountsPage.tsx:78 | the payload is the form with only id and alias replaced, by the resolved pair |
| AccountForm.BadgeOf | src/pages/APIAccountsPage.tsx:268-278 | incomplete triple: 未配置, whatever the map; no entry: 检测中; a valid entry: 已连接; an invalid entry: 未连接 with the entry's error or the empty string as tooltip; each case if and only if |
| AccountForm.BadgeAfterFailedProbe | src/pages/APIAccountsPage.tsx:273-277 | after a failed probe a listed configured account shows 未连接 with the rejection's message |
| AccountForm.BadgeAfterEmptyProbe | src/pages/APIAccountsPage.tsx:273-277 | after an empty probe a listed configured account shows 未连接 with 状态不可用 |
| AccountForm.BadgeOfUnreported | src/pages/APIAccountsPage.tsx:273-274 | a configured account the non-empty probe does not report shows 检测中 |
| AccountForm.ThreeAccountScenario | src/pages/APIAccountsPage.tsx:269-277 | a valid, an invalid and an unconfigured account show 已连接, 未连接 with the error, and 未配置; the unconfigured one has no map entry |
| QueryId.MatchAtSpec | src/pages/APIAccountsPage.tsx:87 | an attempt at a position succeeds exactly when the tag, optional white space and a non-white-space character follow; it captures the whole greedy run |
| QueryId.FindFromSpec | src/pages/APIAccountsPage.tsx:87 | no capture exactly when no position matches; otherwise the capture is the run at the leftmost matching position |
| QueryId.QueryIdOf | src/pages/APIAccountsPage.tsx:87 | no capture exactly when the pattern matches nowhere in the message; otherwise the captured run at the leftmost matching position |
| QueryId.SaveErrorText | src/pages/APIAccountsPage.tsx:88 | the text starts with `保存失败：` followed by the message verbatim |
| QueryId.SaveErrorTextSpec | src/pages/APIAccountsPage.tsx:86-93 | without a match the text is `保存失败：<msg>`; with one it is `保存失败：<msg> · QueryID: <run>` for the leftmost run |
| QueryId.QueryIdExample | src/pages/APIAccountsPage.tsx:87 | a message carrying `OVH-Query-ID: Q7` yields `Q7` |
| AccountsPage.ReplyError | src/pages/APIAccountsPage.tsx:107-110 | the reply's own error, or for a rejection the server's then the client's message, else the fallback; never empty with a non-empty fallback |
| AccountsPage.CredentialCheckAgrees | src/pages/APIAccountsPage.tsx:56-59 | the credential check `HasCredentials` is one test in both places: a form the save refuses without sending any request is exactly one the badge shows as 未配置 |
| AccountsPage.SavedSession | src/pages/APIAccountsPage.tsx:55-97 | an incomplete triple sends nothing and only warns; otherwise the resolve request (endpoint defaulted) and the save are sent whatever the resolution gave; a successful save is the 账户已保存 notification, the whole `refreshAccounts`, then `setCurrentAccount` of the saved id, so the last verification decides the authenticated flag; a save that did not succeed changes nothing else and shows the Query-ID text of the reply's or the rejection's message |
| AccountsPage.SaveSwitchesToSavedId | src/pages/APIAccountsPage.tsx:80-84 | a successful save leaves the refreshed list and makes the saved id current and stored; it notifies the save, then the switch |
| AccountsPage.DeletedSession | src/pages/APIAccountsPage.tsx:99-112 | the delete request is sent first; a failed delete refreshes nothing and shows the reply's or the rejection's error; a successful one leaves the refreshed list; deleting another account is the 账户已删除 notification and the refresh, with no switch; deleting the current account is the notification, the whole refresh, then `setCurrentAccount("")` with its own verification and notification |
| AccountsPage.DeleteCurrentClears | src/pages/APIAccountsPage.tsx:102-105 | deleting the current account clears the current id, in the store too |
| AccountsPage.DeleteCurrentVerifiesTwice | src/pages/APIAccountsPage.tsx:104-105 | deleting the persisted current account verifies twice: the refresh re-adopts the deleted id still in the store, then the clear verifies again |
| AccountsPage.DeleteOtherKeepsCurrent | src/pages/APIAccountsPage.tsx:104-105 | deleting another account keeps a persisted current id |
| AccountsPage.DefaultSetSession | src/pages/APIAccountsPage.tsx:114-126 | the default request is sent first; success: the 默认账户已设置 notification and then the whole `refreshAccounts`, with its verification and status probe; failure: nothing refreshed, the error shown; a persisted non-empty current id never changes |
| AccountsPage.DefaultSetAdoptsFirstListed | src/pages/APIAccountsPage.tsx:119 | set-default can change an empty current id: with nothing stored, its refresh makes the first listed id current |
| AccountsPage.Page.constructor | src/pages/APIAccountsPage.tsx:8-19 | the form starts blank with `ovh-eu` and `IE`, not saving, nothing edited |
| AccountsPage.Page.FillFromAccount | src/pages/APIAccountsPage.tsx:37-48 | the form becomes `FilledFrom` of the account and the edited id its id |
| AccountsPage.Page.ResetForm | src/pages/APIAccountsPage.tsx:50-53 | the form becomes blank and nothing is edited |
| AccountsPage.Page.SaveAccount | src/pages/APIAccountsPage.tsx:55-97 | the provider's fields after are `SavedSession` of those before; the form resets only after a successful save; saving is false once it settles, and untouched when the triple is incomplete |
| AccountsPage.Page.DeleteAccount | src/pages/APIAccountsPage.tsx:99-112 | the provider's fields after are `DeletedSession` of those before, compared with the current id seen at entry |
| AccountsPage.Page.SetDefault | src/pages/APIAccountsPage.tsx:114-126 | the provider's fields after are `DefaultSetSession` of those before |

## Left out

- React scheduling: the mount effects (src/context/APIContext.tsx:155-163, src/pages/APIAccountsPage.tsx:21-26), batched `setState` and interleaved calls are not modelled. Each handler runs to completion in program order.
- AuthSession.Refreshed: the status refresh inside `refreshAccounts` reads the just-fetched list. In the code it reads the `accounts` captured by the closure, which can be stale.
- The unsubscribe returned by `apiEvents.onAuthChanged` (src/context/APIContext.tsx:7-10) is not modelled. It passes a fresh wrapper to `removeEventListener`, so it detaches nothing. Listeners are not modelled at all, only the emissions.
- Console logging is left out, and so is the warning text built when the account list cannot be fetched (src/context/APIContext.tsx:150-151). Neither is observable state.
- ApiContext.ApiProvider.SetApiKeys: `isLoading` is true during the call. That intermediate value is not observable in a sequential model, so only its final `false` is stated.
- JavaScript truthiness is modelled only for strings and booleans. `undefined` and `null` strings are `""`, `valid` is `Some(true)`/`Some(false)`/absent, and error values are strings. A non-string error or a truthy non-boolean `valid` is not modelled.
- AuthSession.Boot: an `appSecret` or `consumerKey` missing from the settings reply is stored as `""`, not `undefined`.
- The `catch` around the switch toast in `setCurrentAccount` (src/context/APIContext.tsx:232-234) is unreachable in the model, because `checkAuthentication` never throws.
- The same holds for the page's outer `catch` (src/pages/APIAccountsPage.tsx:90-93, 109-110, 123-124) when entered by a throw from the refresh or the switch. Both swallow their errors. Only the request's own rejection reaches it.
- The HTTP client and the backend are not part of this model. Every call is one atomic outcome given as input, including the account registry itself.
- JSX rendering, visibility toggles, the form's `onChange` handler and the current-account selector are not modelled. The selector calls `setCurrentAccount`, which is modelled.
- `src/pages/SettingsPage.tsx` is not part of this model.
- Timeouts and retries do not exist in the code and are not modelled.
