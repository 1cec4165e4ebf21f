# Purchase tracker client state, in Dafny

This project models the two client-side state containers of a small purchase-request tracker.

- **The purchase store** (`src/lib/store.ts`) keeps the list of purchases plus a `loading` flag and an `error` message. It has four actions: fetch the list, add a purchase, change a purchase's status, and upload a bill again. Each action makes one remote call. The status change first builds an update payload from the requested status, an optional approval type and the current time. After a successful update or reupload, the server's record replaces every list entry with the same `_id`.
- **The auth store** (`src/lib/auth-store.ts`) holds `isAuthenticated` and `userRole`. `login` checks a fixed two-entry credential table: the user name is lowercased and the password is compared exactly. `logout` clears the session. `canApprove` compares the current role with the role asked about.

Files:

- `common.dfy` (module `Common`): `Option`, the `Role` type, the outcome of a remote call (`ApiOutcome`: `Ok(value)` or `Fail(message)`), timestamps, and ASCII lowercasing.
- `purchase.dfy` (module `Purchases`): the `Purchase` record of `types.ts`. `Patch` is the part of `Partial<Purchase>` the store sends. Each key is either `Absent` or `Present(v)`, and `v` may be null. `Apply` gives a patch its meaning: keys that are present overwrite, keys that are absent are kept. This is the merge the server's `findByIdAndUpdate` performs. The lemmas use it to say what a payload does to a record.
- `store.dfy` (module `Store`): the payload functions `StatusPatch` and `FilePatch`, the replace-by-id map `ReplaceById`, and the class `PurchaseStore` with the four actions.
- `auth.dfy` (module `Auth`): the credential table, `Lookup` (the first matching entry, as `Array.prototype.find` returns it) and the session as a value (`Session`). It also has the step functions for login and logout, a trace function `Run`, and the class `AuthStore`. `AuthStore`'s methods are proved equal to those step functions.

Each remote call is a parameter of its action: `ApiOutcome<T>`. An action that re-raises a failure returns the failure's message as `thrown`. `UpdatePurchaseStatus` and `ReuploadBill` also return `sent`, the payload they pass to the API.

Points worth knowing about the store's own behaviour:

- The store has no transition guards. `StatusPatch` produces `finance_approved` from any prior record (`Store.FinanceApprovalUnguarded`). The 10000 threshold and the rule that a finance-approved record is final exist only as the dashboard's button conditions (`project 7/project 8/src/components/admin-dashboard.tsx`, lines 223, 235-236 and 248-249). That component is not part of this model.
- A director approval does not mention `financeApproval`, so a prior finance approval survives it (`Store.StatusPatchEffect`). Only the dashboard's button conditions keep a director approval from following a finance approval.
- If the requested `id` matches no entry, the list stays as it was (`Store.ReplaceById`). The store raises no error of its own for an unknown id.
- When an approval type is given, the status passed in is ignored unless it is `rejected` (`Store.ApprovalIgnoresRequestedStatus`).

## Model

| member | source | states |
|---|---|---|
| `Common.ToLower` | src/lib/auth-store.ts:27 | lowercasing keeps the length, and each character becomes its ASCII lower-case form |
| `Store.StatusPatch` | src/lib/store.ts:47-66 | the payload always has a status and never file fields. Its status is `rejected` iff the requested status is. Otherwise its status is `director_approved` for a director approval, `finance_approved` for a finance approval, and the requested status when no approval type is given. It names `directorApproval` iff the request is a rejection or a director approval, and `financeApproval` iff it is a rejection or a finance approval. Outside a rejection, the approval it names is `{approved: true, date: now}`. A rejection names both approvals as null |
| `Store.FilePatch` | src/lib/store.ts:84 | the reupload payload has exactly the two file fields and no status or approvals |
| `Store.ReplaceById` | src/lib/store.ts:69-73 | the length is kept. Every entry with `_id == id` becomes the returned purchase and every other entry is unchanged. If the requested `id` matches no entry, the list is unchanged |
| `Store.RejectionClearsApprovals` | src/lib/store.ts:50-55 | applied to any record, a rejection yields `rejected` and both approvals null, whatever the approval type |
| `Store.StatusPatchEffect` | src/lib/store.ts:48-66 | applying the payload keeps file fields, id, amount and createdAt. A rejection clears both approvals. A director or finance approval sets its status and its own approval stamped `now` and keeps the other approval. No approval type gives the old record with only the status replaced |
| `Store.ApprovalIgnoresRequestedStatus` | src/lib/store.ts:56-65 | with an approval type given, any two non-rejected requested statuses give the same payload |
| `Store.FinanceApprovalUnguarded` | src/lib/store.ts:61-65 | a finance approval request gives `finance_approved` from any record: no threshold or terminal-state guard |
| `Store.ReuploadKeepsApprovals` | src/lib/store.ts:84 | a reupload changes the two file fields of a record and nothing else |
| `Store.ReplaceByIdIdempotent` | src/lib/store.ts:70-72 | replacing by id twice with the same record gives the same list as replacing once |
| `Store.ReplaceByIdKeepsIds` | src/lib/store.ts:70-72 | when the returned record has the requested id, every position keeps its `_id` |
| `Store.PurchaseStore.constructor` | src/lib/store.ts:16-18 | the store starts with an empty list, not loading, and no error |
| `Store.PurchaseStore.FetchPurchases` | src/lib/store.ts:20-28 | ends not loading. Success replaces the list wholesale and leaves no error. Failure keeps the list and records the message, and nothing is raised |
| `Store.PurchaseStore.AddPurchase` | src/lib/store.ts:30-42 | ends not loading. Success prepends the created purchase to the old list with no error. Failure keeps the list, records the message and raises it again |
| `Store.PurchaseStore.UpdatePurchaseStatus` | src/lib/store.ts:44-79 | sends `StatusPatch(status, approvalType, now)` and ends not loading. Success gives `ReplaceById(old list, id, reply)` with no error. Failure keeps the list, records the message and raises it again |
| `Store.PurchaseStore.ReuploadBill` | src/lib/store.ts:81-95 | sends `FilePatch(fileUrl, fileName)` and ends not loading. Success replaces by id with the reply. Failure keeps the list, records the message and raises it again |
| `Auth.Lookup` | src/lib/auth-store.ts:26-28 | gives no entry iff no entry matches (lowercased name and exact password). Otherwise it gives an entry that matches, with no match before it |
| `Auth.AuthStore.FindUser` | src/lib/auth-store.ts:26-28 | the linear search over the credential table returns the first match, `Lookup(ValidUsers, …)` |
| `Auth.LoginAcceptsExactly` | src/lib/auth-store.ts:14-28 | login succeeds iff the lowercased name is `director` or `finance` and the password is exactly `1234` |
| `Auth.LoginSetsRole` | src/lib/auth-store.ts:30-32 | a successful login authenticates, and the role's name equals the lowercased user name |
| `Auth.FailedLoginKeepsSession` | src/lib/auth-store.ts:33-34 | a failed login leaves the session as it was, so an existing session survives |
| `Auth.LogoutIdempotent` | src/lib/auth-store.ts:37-39 | logout gives the initial state, and a second logout changes nothing |
| `Auth.LoggedOutCannotApprove` | src/lib/auth-store.ts:37-44 | after logout, `canApprove` is false for both roles |
| `Auth.StepKeepsValid` | src/lib/auth-store.ts:30-39 | a login or logout keeps `isAuthenticated ⇔ userRole ≠ null` |
| `Auth.RunKeepsValid` | src/lib/auth-store.ts:25-39 | from a consistent session, any sequence of logins and logouts ends in a consistent session |
| `Auth.ReachableSessionsValid` | src/lib/auth-store.ts:22-39 | every session reachable from the initial state satisfies `isAuthenticated ⇔ userRole ≠ null` |
| `Auth.AuthStore.constructor` | src/lib/auth-store.ts:22-23 | the session starts unauthenticated with no role |
| `Auth.AuthStore.Login` | src/lib/auth-store.ts:25-35 | the new fields and the result are those of `LoginStep` on the old fields, and consistency is kept |
| `Auth.AuthStore.Logout` | src/lib/auth-store.ts:37-39 | the new fields are those of `LogoutStep`: unauthenticated with no role |
| `Auth.AuthStore.CanApprove` | src/lib/auth-store.ts:41-44 | true iff the current role equals the role asked about, so false when no role is held. It changes nothing |

## Left out

- The `./api` module (`fetchPurchases`, `createPurchase`, `updatePurchase`, `reuploadBill`) is network I/O. Each call is an `ApiOutcome` parameter, meaning the server's reply or the thrown message.
- `Store.PurchaseStore.AddPurchase` does not take the draft purchase. The source forwards it to the API unchanged, and the API is a parameter here.
- The server (`src/server/index.ts`: routing, MongoDB queries, sorting, `listen`) is not part of this model. `Apply` gives only the meaning of a partial update, for use in lemmas. The store itself trusts the record the server returns.
- The moment between an action's start (`loading=true, error=null`) and its end is not a separate state. Each action is one sequential step, so that moment shows only through its effect: `error` is null after every success. Concurrent, interleaved actions are not modelled.
- zustand's `create`/`persist` and `sessionStorage` persistence are library internals. Each store is a class whose methods run atomically. A session restored from storage is arbitrary, which is why `Login` promises consistency only from a consistent state.
- `new Date()` is the `now` parameter, and dates are integer timestamps.
- `Common.ToLower`: lowercases ASCII letters only, not the full Unicode mapping of `toLowerCase`.
- `amount` is a `real`, not an IEEE double.
- React rendering, dialogs, toasts and the login form are UI and are not part of this model. The login form only forwards to `login`. The admin dashboard does more: it decides which `(status, approvalType)` pair to send and when (`admin-dashboard.tsx`, lines 223-259). That choice, including its threshold and terminal-state conditions, is not modelled.
- The amount threshold and the terminal-state rules are dashboard button conditions, not store code, so they are not guards here.
- An update for an unknown id: the server's `findByIdAndUpdate` resolves to `null` and sends it with status 200, so `updatePurchase` returns `null` without throwing. The store's `map` would then put `null` in place of any list entry that still has that id. `ApiOutcome<Purchase>`'s `Ok` always carries a purchase, so the model cannot express this `null` reply.
