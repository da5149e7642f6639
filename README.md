# Mail and user-administration front-end: a Dafny model of its client-side logic

This project models the client-side logic of a browser front-end that shows a
user's mail and lets an administrator manage users. It covers four parts:

- **The email cache** (`src/utils/emailCache.ts`). It keeps the last fetched
  message list in browser storage under two fixed keys, `cached_emails` and
  `emails_cache_timestamp`, and treats it as stale after 5 minutes (300000 ms).
  It is modelled as the class `EmailCacheStore.EmailCache`. The class holds the
  storage as a `map<string, string>` and the clock as a field. Each method is
  tied to a pure function of the storage: `CachedEmails`, `Expired`,
  `StoreAfterSave` and `StoreAfterClear`. The lemmas are stated over those
  functions.
- **The mail page** (`src/pages/EmailsPage.tsx`). This part covers the page of
  ten messages that is shown, the page count, and the pager's buttons. It also
  covers the state changes of the refresh handler, of choosing a page and of
  selecting a message. The state cells are the fields of
  `EmailsPageModel.EmailsPage`.
- **The admin page** (`src/pages/AdminPanel.tsx`). This part covers the row
  buttons of the user table, the table's reload (`loadUsers`) and the row
  handlers for activate, deactivate and delete, as the class
  `AdminPanelModel.AdminPanel`. It also covers the ordered checks of the
  create-user and edit-user dialogs (`ValidateCreate`, `ValidateEdit`) and the
  dialogs' submit handlers, which are classes over their form state.
- **The request defaults of the mail service** (`src/services/emailService.ts`):
  `EmailService.RequestBody`.

Supporting modules:

- `Wrappers` defines `Option`.
- `EmailTypes` and `UserTypes` mirror `src/types/email.ts` and
  `src/types/user.ts`. They use camelCase field names, and optional or
  nullable properties become `Option`.
- `JsText` models the JavaScript built-ins the code depends on: `trim`,
  `parseInt` without a radix, integer `toString`, and `||` on an optional
  string.
- `EmailCodec` is the stored text form of a message list. It stands in for
  `JSON.stringify`/`JSON.parse`. It is a length-prefixed encoding, and
  `DecodeEncode` proves that decoding an encoded list returns the same list.

Inputs that come from outside the code are given as parameters:

- The clock (`Date.now()`) is the `now` field of `EmailCache`, which `Tick`
  advances.
- Whether a storage write throws is given to `Save` as a `WriteFault`.
- The result of the mail fetch is given as a `FetchOutcome`.
- The result of the admin service call is given as a `ServiceOutcome`.

The model follows the code as written:

- The cache uses two global keys. It has no per-user keys and no clear-all.
- The mail page always asks for 25 messages. It has no "load more" and never
  reads the cache.
- A failed load keeps the message list and the current page. It does not
  empty them.
- A successful load resets the page to 1 and does not move to a selected
  message.

## Model

| member | source | states |
|---|---|---|
| `JsText.Trim` | src/pages/AdminPanel.tsx:242 | `String.prototype.trim` as start-trim then end-trim; it has no contract of its own, and its meaning is stated by `TrimStartShape`, `TrimEndShape`, `TrimEmptyIff` and `TrimIsInfix` |
| `JsText.TrimStartShape` | src/pages/AdminPanel.tsx:242 | the start-trimmed text is a suffix of the input, everything removed is whitespace, and it does not begin with whitespace |
| `JsText.TrimEndShape` | src/pages/AdminPanel.tsx:242 | the end-trimmed text is a prefix of the input, everything removed is whitespace, and it does not end with whitespace |
| `JsText.TrimEmptyIff` | src/pages/AdminPanel.tsx:242 | `s.trim()` is empty (falsy) exactly when every character of `s` is JavaScript whitespace |
| `JsText.TrimIsInfix` | src/pages/AdminPanel.tsx:393 | `trim` keeps a contiguous part of the input and removes only whitespace at the two ends |
| `JsText.NatToString` | src/utils/emailCache.ts:11 | `Date.now().toString()` is a non-empty string of decimal digits with no leading zero, and its value is the number |
| `JsText.ParseInt` | src/utils/emailCache.ts:35 | the global `parseInt` with no radix (whitespace, sign, `0x` prefix, longest digit run, NaN as none); it has no contract of its own, and its meaning is stated by `ParseIntOfDecimal`, `ParseIntOfNatToString` and `ParseIntWithoutDigits` |
| `JsText.ParseIntOfDecimal` | src/utils/emailCache.ts:35 | `parseInt` of a non-empty decimal digit string, leading zeros included, is the value of its digits |
| `JsText.ParseIntOfNatToString` | src/utils/emailCache.ts:35 | `parseInt` applied to a stored clock value gives that value back |
| `JsText.ParseIntWithoutDigits` | src/utils/emailCache.ts:35 | text that contains no decimal digit parses to NaN, whatever letters it holds, because a hexadecimal prefix needs a leading `0` |
| `JsText.ParseIntOfWords` | src/utils/emailCache.ts:35 | "NaN" and "undefined" parse to NaN |
| `JsText.OrElse` | src/pages/EmailsPage.tsx:34 | the JavaScript "or" of an optional detail and a fallback gives the detail when it is a non-empty string, and the fallback when it is absent or empty |
| `EmailCodec.Encode` | src/utils/emailCache.ts:10 | the stored text of any list is non-empty, so even a saved empty list is truthy when read back |
| `EmailCodec.Decode` | src/utils/emailCache.ts:23 | the role of `JSON.parse`: the list a stored text denotes, none when it is not one; it has no contract of its own, and `DecodeEncode` and `DecodeEmpty` state what it does |
| `EmailCodec.DecodeEncode` | src/utils/emailCache.ts:10-23 | the text written by `save` decodes in `get` to the same list, in the same order |
| `EmailCodec.EncodeInjective` | src/utils/emailCache.ts:10 | two different lists never produce the same stored text |
| `EmailCodec.DecodeEmpty` | src/utils/emailCache.ts:21 | the empty text is not a stored list |
| `EmailCacheStore.CachedEmails` | src/utils/emailCache.ts:17-28 | `get` returns null when the list key is absent or empty; for any other stored text it returns what that text decodes to, which is null when it does not decode |
| `EmailCacheStore.StoreAfterSave` | src/utils/emailCache.ts:8-15 | `save` adds or rewrites only the two cache keys and leaves every other key's value as it was; a write that throws adds nothing |
| `EmailCacheStore.StoreAfterClear` | src/utils/emailCache.ts:42-45 | `clear` removes exactly the two cache keys and keeps every other entry with its value |
| `EmailCacheStore.EmailCache.constructor` | src/utils/emailCache.ts:7 | the cache starts over a given storage content and clock value |
| `EmailCacheStore.EmailCache.Tick` | src/utils/emailCache.ts:11 | the injected clock moves forward by the given milliseconds |
| `EmailCacheStore.EmailCache.Save` | src/utils/emailCache.ts:8-15 | the new storage is `StoreAfterSave` of the old storage, the list, the clock and the write fault; no error reaches the caller |
| `EmailCacheStore.EmailCache.Get` | src/utils/emailCache.ts:17-28 | returns `CachedEmails` of the storage and never fails |
| `EmailCacheStore.EmailCache.IsExpired` | src/utils/emailCache.ts:30-40 | returns `Expired` of the storage and the clock |
| `EmailCacheStore.EmailCache.Clear` | src/utils/emailCache.ts:42-45 | the new storage is `StoreAfterClear` of the old storage |
| `EmailCacheStore.SaveThenGet` | src/utils/emailCache.ts:10 | after a `save` whose list write succeeded, `get` returns exactly the saved list |
| `EmailCacheStore.FailedSaveChangesNothing` | src/utils/emailCache.ts:12-14 | a `save` whose first write throws leaves the storage unchanged |
| `EmailCacheStore.PartialSaveKeepsTimestamp` | src/utils/emailCache.ts:11 | a `save` whose clock write throws leaves expiry decided by the older clock value |
| `EmailCacheStore.SaveIdempotent` | src/utils/emailCache.ts:8-15 | saving the same list twice at the same clock gives the same storage as saving it once |
| `EmailCacheStore.SaveOverwrites` | src/utils/emailCache.ts:10 | a second `save` replaces the first list and does not append to it |
| `EmailCacheStore.Expired` | src/utils/emailCache.ts:30-40 | what `isExpired` returns for a storage and a clock; it has no contract of its own, and its meaning is stated by `ExpiredWithoutTimestamp`, `ExpiryAfterSave`, `ExpiryBoundary` and `NonNumericTimestampNeverExpires` |
| `EmailCacheStore.ExpiredWithoutTimestamp` | src/utils/emailCache.ts:32-33 | with no clock value stored, or an empty one, the cache is expired |
| `EmailCacheStore.ExpiryAfterSave` | src/utils/emailCache.ts:35-36 | after a full `save` at time `t`, the cache is expired at time `now` if and only if `now - t > 300000` |
| `EmailCacheStore.ExpiryBoundary` | src/utils/emailCache.ts:5 | right after `save` and at exactly 5 minutes the cache is fresh; one millisecond later it is expired |
| `EmailCacheStore.NonNumericTimestampNeverExpires` | src/utils/emailCache.ts:35-36 | a stored clock value with no decimal digit parses to NaN, and then `isExpired` is false at every clock value |
| `EmailCacheStore.ClearEmptiesCache` | src/utils/emailCache.ts:42-45 | after `clear`, `get` returns null and `isExpired` is true |
| `EmailCacheStore.ClearIdempotent` | src/utils/emailCache.ts:42-45 | clearing twice gives the same storage as clearing once |
| `EmailCacheStore.SaveThenClear` | src/utils/emailCache.ts:42-45 | `clear` after any `save` leaves the storage as `clear` alone would |
| `EmailService.RequestBody` | src/services/emailService.ts:8-11 | `folder`, `limit` and `search_criteria` are passed through when truthy and replaced by "INBOX", 25 and "ALL" when absent, empty or zero, so none of them is ever sent falsy; `include_body` is false exactly when the caller gave an explicit false |
| `EmailService.RequestBodyIdempotent` | src/services/emailService.ts:8-11 | applying the defaults to an already-defaulted body changes nothing |
| `EmailService.ExplicitRequestPassesThrough` | src/services/emailService.ts:8-11 | a request whose properties are all truthy is sent exactly as given |
| `EmailService.EmptyRequestDefaults` | src/services/emailService.ts:5-11 | `fetchEmails()` with no argument sends "INBOX", 25, "ALL" and `include_body` true |
| `EmailsPageModel.JsSlice` | src/pages/EmailsPage.tsx:55 | `slice` never returns more elements than the list holds |
| `EmailsPageModel.TotalPages` | src/pages/EmailsPage.tsx:56 | the page count is the least `r` with `10 * r >= count`, and it is zero exactly when there are no messages |
| `EmailsPageModel.PageOf` | src/pages/EmailsPage.tsx:53-55 | `currentEmails` for a page number; it has no contract of its own, and `PageWindow` and `PagesCoverList` state which messages each page shows |
| `EmailsPageModel.PageWindow` | src/pages/EmailsPage.tsx:53-55 | page `p >= 1` shows the messages from index `(p-1)*10` up to `min(p*10, count)`, at most 10 of them |
| `EmailsPageModel.PageNonEmptyIffInRange` | src/pages/EmailsPage.tsx:53-56 | a page `p >= 1` shows at least one message if and only if `p <= totalPages` |
| `EmailsPageModel.PagesUpToPrefix` | src/pages/EmailsPage.tsx:53-55 | pages 1 to `k` together are the first `min(10k, count)` messages |
| `EmailsPageModel.PagesCoverList` | src/pages/EmailsPage.tsx:53-56 | pages 1 to `totalPages`, read in turn, give the whole list in its original order |
| `EmailsPageModel.MessageOnItsPage` | src/pages/EmailsPage.tsx:53-56 | message `i` is on page `i/10 + 1`, at position `i % 10`, and that page is in range |
| `EmailsPageModel.TwentyFiveMessages` | src/pages/EmailsPage.tsx:56 | 25 messages make 3 pages, and page 3 shows messages 20 to 24 |
| `EmailsPageModel.PagerView` | src/pages/EmailsPage.tsx:151-183 | the pager is shown if and only if `totalPages > 1`; "previous" goes to `currentPage - 1` and is disabled if and only if `currentPage = 1`; "next" goes to `currentPage + 1` and is disabled if and only if `currentPage = totalPages`; the numbered buttons are 1 to `totalPages`, in order, once each |
| `EmailsPageModel.PagerKeepsPageInRange` | src/pages/EmailsPage.tsx:151-183 | from a page in range, any page the pager lets the user click is between 1 and `totalPages` |
| `EmailsPageModel.EmailsPage.constructor` | src/pages/EmailsPage.tsx:12-16 | the page starts on page 1 with no messages, no selection, no error and not loading |
| `EmailsPageModel.EmailsPage.HandleLoadEmails` | src/pages/EmailsPage.tsx:19-38 | posts "INBOX"/25/"ALL"/true. On success it takes the response's list, goes to page 1 and clears the error. On a non-success response it shows `message`. On a thrown error it shows the detail or the fixed fallback. In both failure cases the list and page stay. Loading ends false, the selection is untouched, and a page in range stays in range |
| `EmailsPageModel.EmailsPage.HandlePageChange` | src/pages/EmailsPage.tsx:58-61 | sets the current page to the given number and clears the selection, and changes nothing else; a page the pager offers keeps the page in range |
| `EmailsPageModel.EmailsPage.SelectEmail` | src/pages/EmailsPage.tsx:119 | clicking a message makes it the selection |
| `AdminPanelModel.RowActions` | src/pages/AdminPanel.tsx:156-186 | "edit" always comes first; "delete" appears if and only if the row is not the current user; "deactivate" appears if and only if the row is another, active user; "activate" appears if and only if it is another, inactive user; never both |
| `AdminPanelModel.ValidateCreate` | src/pages/AdminPanel.tsx:241-258 | the create dialog's checks as a function from the form to the first error message, none when `createUser` is called; it has no contract of its own, and its meaning is stated by `ValidateCreateOrder` |
| `AdminPanelModel.ValidateCreateOrder` | src/pages/AdminPanel.tsx:241-258 | the required-fields error appears if and only if the email, username or password is all whitespace, and it comes before either length check; next, a username shorter than 3 is rejected; next, a password shorter than 8; the form passes if and only if none of these holds |
| `AdminPanelModel.UsernameLengthIsUntrimmed` | src/pages/AdminPanel.tsx:248 | the username length check counts untrimmed characters, so "  a" passes |
| `AdminPanelModel.CreateUserModal.constructor` | src/pages/AdminPanel.tsx:226-234 | the dialog opens with empty fields, no error and not loading |
| `AdminPanelModel.CreateUserModal.UpdateForm` | src/pages/AdminPanel.tsx:291 | an input change replaces the form data |
| `AdminPanelModel.CreateUserModal.HandleSubmit` | src/pages/AdminPanel.tsx:236-268 | `createUser` is called if and only if all three checks pass. A rejection shows that check's message. A call shows the service's detail or the fallback on failure, and `onSuccess` is called if and only if the call succeeded. Loading always ends false |
| `AdminPanelModel.ValidateEdit` | src/pages/AdminPanel.tsx:392-404 | the edit dialog's checks as a function from the form, the edited user's id and the current user's id to the first error message, none when `updateUser` is called; it has no contract of its own, and its meaning is stated by `ValidateEditOrder` |
| `AdminPanelModel.ValidateEditOrder` | src/pages/AdminPanel.tsx:392-404 | a missing or all-whitespace email or username is rejected first; next, the form is rejected if and only if it is the current user's own account with `is_active` false; otherwise it passes |
| `AdminPanelModel.InitialEditForm` | src/pages/AdminPanel.tsx:377-383 | the edit form starts with the user's email, username, flags and full name (empty when null), and no password |
| `AdminPanelModel.EditUserModal.constructor` | src/pages/AdminPanel.tsx:377-385 | the dialog opens on `InitialEditForm(user)` with no error and not loading |
| `AdminPanelModel.EditUserModal.UpdateText` | src/pages/AdminPanel.tsx:437 | a text input change replaces the email, username and full name and keeps the rest |
| `AdminPanelModel.EditUserModal.ToggleActive` | src/pages/AdminPanel.tsx:473-478 | the "active" checkbox sets `is_active` on another user's form and does nothing on one's own, where it is disabled |
| `AdminPanelModel.EditUserModal.ToggleSuperuser` | src/pages/AdminPanel.tsx:489-494 | the "administrator" checkbox sets `is_superuser` on another user's form and does nothing on one's own, where it is disabled |
| `AdminPanelModel.EditUserModal.ActiveSelfNeverSelfDeactivates` | src/pages/AdminPanel.tsx:400-404 | while the dialog's invariant holds, an active user editing their own account never gets the self-deactivation error |
| `AdminPanelModel.EditUserModal.HandleSubmit` | src/pages/AdminPanel.tsx:387-414 | `updateUser` is called if and only if both checks pass. A rejection shows that check's message. A call shows the service's detail or the fallback on failure, and `onSuccess` is called if and only if the call succeeded. Loading always ends false |
| `AdminPanelModel.AdminPanel.constructor` | src/pages/AdminPanel.tsx:11-13 | the page starts with an empty table, no error and not loading |
| `AdminPanelModel.AdminPanel.LoadUsers` | src/pages/AdminPanel.tsx:21-32 | on success the table is the returned list and the error is cleared; on failure the table stays and the error is the detail or the fixed fallback; loading ends false |
| `AdminPanelModel.AdminPanel.RowActionDone` | src/pages/AdminPanel.tsx:34-60 | a successful service call is followed by a reload; a failed one shows the detail or the handler's fallback and changes neither the table nor the loading flag |
| `AdminPanelModel.AdminPanel.HandleActivate` | src/pages/AdminPanel.tsx:34-41 | on success the table is reloaded; on failure the error is the detail or "Ошибка активации", and the table stays |
| `AdminPanelModel.AdminPanel.HandleDeactivate` | src/pages/AdminPanel.tsx:43-50 | on success the table is reloaded; on failure the error is the detail or "Ошибка деактивации", and the table stays |
| `AdminPanelModel.AdminPanel.HandleDelete` | src/pages/AdminPanel.tsx:52-61 | the service is called if and only if the user confirmed; without confirmation nothing changes; on success the table is reloaded; on failure the error is the detail or "Ошибка удаления" |
| `AdminPanelModel.DeactivatingOthersPasses` | src/pages/AdminPanel.tsx:400-404 | deactivating another user passes the edit checks when the email and username are filled in |
| `AdminPanelModel.NoSelfLockout` | src/pages/AdminPanel.tsx:162-186 | the current user's own row offers neither "deactivate" nor "delete", and an edit of their own account with `is_active` false is refused |
| `AdminPanelModel.InitialEditFormNeverSelfDeactivates` | src/pages/AdminPanel.tsx:377-404 | a dialog opened on an active user, or on someone else, starts with a form the self-deactivation check accepts |

## Left out

- Logging is not modelled: the `console.error` calls in `save` and `get` (src/utils/emailCache.ts:13, 25) and in `handleLoadEmails` (src/pages/EmailsPage.tsx:33) have no effect on the state.
- Network calls are not modelled. This covers the HTTP post of `fetchEmails` and every call of the admin, template and auth services over the `./api` module. They are outside this code, and the model gives their outcome as a parameter instead.
- The `confirm()` dialog of `handleDelete` is not modelled. Its answer is the `confirmed` parameter of `AdminPanelModel.AdminPanel.HandleDelete`.
- The reload that a successful row action starts is not awaited in the source. The model runs it within the same step, with its outcome given as a parameter.
- The dashboard, the app shell, the login form and the template types are left out. They hold no logic that belongs to the modelled code.
- Markup and styling are left out. This includes the highlighted page button, the unread styling, the deactivation warning banner and the disabled refresh button while loading.
- Three display helpers are left out: `formatDate` (locale-dependent `toLocaleString`), the attachment size in KB (floating point) and the HTML body rendering.
- `EmailCodec.Encode`: stands in a length-prefixed encoding for JSON. `JSON.parse` of valid JSON that is not a message list (say `5`) returns that value as it is. In the model, such text simply does not decode.
- `EmailCodec.Decode`: also accepts some texts that are not the encoding of their result, such as counts with leading zeros. Only encode-then-decode is a round trip.
- `JsText.IsWhitespace` lists the ECMAScript whitespace and line-terminator code points. `.length` is the sequence length, not the UTF-16 length.
- `EmailCacheStore.EmailCache.IsExpired`: the timestamp is an integer. A `parseInt` result beyond 2^53 loses precision in JavaScript, which is not modelled. Negative zero is zero.
- Access to `localStorage` itself can throw, for example when storage is disabled. That is not modelled. Only a throwing `setItem` inside `save` is, through `WriteFault`. The `catch` branches of `get` and `isExpired` that handle a throwing `getItem` are therefore not reached. `clear`, which has no `try`, is modelled as always succeeding.
- The clock is a natural number of milliseconds, so dates before 1970 are not modelled.
- Async interleaving is not modelled. React batching, re-entrant handlers and races between overlapping loads are out, because each handler is one atomic step.
- `UserTypes.User`: the optional and nullable `email_password` is one `Option`, so "absent" and "null" are not told apart.
- `EmailTypes.EmailAttachment`: the size is a natural number, not a JavaScript number.
- `EmailTypes.EmailFetchRequest`: the limit is an optional integer. A `NaN` limit, which is falsy and so becomes 25, and fractional limits are not modelled.
- `EmailsPageModel.FetchOutcome`, `AdminPanelModel.ServiceOutcome` and `AdminPanelModel.UsersOutcome`: the error `detail` is an optional string. The source's `detail` may be any value, and a truthy non-string one, such as a list of validation errors, is shown as it is. That case is not modelled.
