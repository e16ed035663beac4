# Session store of the pattern-library front end

This project models the client's user session store (`src/stores/userStore.js`),
a Pinia store with three nullable string fields — `userId`, `username` and
`sessionToken` — a derived `isAuthenticated` getter, and four actions
(`login`, `logout`, `restoreSession`, `updateUsername`) that mirror the
session into the browser's `localStorage` under the keys `"userId"`,
`"username"` and `"sessionToken"`.

Layout:

- `wrappers.dfy` — `Option`, standing for a JavaScript value that may be `null`.
- `web_storage.dfy` — `localStorage` as a class `LocalStorage` over a
  `map<string, string>`, with `getItem` (null for an absent key), `setItem`
  and `removeItem`. It is a separate object so that two stores (before and
  after a page reload) share it.
- `user_store.dfy` — the session as a value, the JavaScript truthiness the
  source relies on (`!!`, `||`, `&&` treat null and `""` alike), one
  function per action stating what the action promises, and the class
  `Store` whose methods update the fields and the storage step by step and
  are proved to reach exactly the state the function describes.
- `store_lifetime.dfy` — any sequence of actions over a page's life, with
  the invariants that the store touches no storage key but its three, and
  that while authenticated the stored id and token match the session, so a
  reload restores the same identity.

Behaviour of `userStore.js` worth noting:

- `isAuthenticated` uses JavaScript truthiness, so an empty `userId` or
  token is not authenticated, just like a null one.
- When `restoreSession` finds no restorable session it leaves the store as
  it was; it does not clear it.
- `login` stores `username || ""`, so after `login(u, null)` and a reload
  the username comes back as `""`, not null; only the id and token are
  mirrored exactly.
- The route table in `src/router/index.js` has no navigation guard and no
  authentication flag, so nothing in the router consults the store.

## Model

| member | source | states |
|---|---|---|
| `UserStore.Store.constructor` | src/stores/userStore.js:8-15 | a new store has all three fields null and is not authenticated, and does not touch storage |
| `UserStore.Authenticated` | src/stores/userStore.js:13-15 | the getter on a session value: an authenticated session has a non-null user id and a non-null token |
| `UserStore.Store.IsAuthenticated` | src/stores/userStore.js:13-15 | the getter on the store's fields agrees with `Authenticated` of the current session, and implies both `userId` and `sessionToken` are non-null |
| `UserStore.AuthenticatedExactly` | src/stores/userStore.js:13-15 | authenticated exactly when `userId` and `sessionToken` are both non-null and non-empty; the username plays no part; the empty session is not authenticated |
| `UserStore.AfterLogin` | src/stores/userStore.js:18-27 | login sets `userId` and `username` as given and the token to the given token when it is truthy, else to the user id; writes exactly the three keys (username as `""` when null or empty), adds no other key and keeps every other entry; authenticated afterwards iff the user id is non-empty; storage then matches the session |
| `UserStore.Store.Login` | src/stores/userStore.js:18-27 | the fields and `localStorage` after the call are exactly `AfterLogin` of the state before |
| `UserStore.AfterLogout` | src/stores/userStore.js:29-38 | logout nulls all three fields, is not authenticated, removes exactly the three keys and keeps every other entry |
| `UserStore.Store.Logout` | src/stores/userStore.js:29-38 | the fields and `localStorage` after the call are exactly `AfterLogout` of the state before |
| `UserStore.RestoredSession` | src/stores/userStore.js:40-52 | a session is restored iff stored `userId` and `sessionToken` are both present and non-empty; the restored session is authenticated, equals the stored id and token, and its username is null exactly when the `"username"` key is absent |
| `UserStore.AfterRestore` | src/stores/userStore.js:40-52 | restore never changes storage; when it declines nothing changes; when it succeeds the session is the stored one and matches storage |
| `UserStore.Store.RestoreSession` | src/stores/userStore.js:40-52 | returns true iff the storage holds a restorable session; modifies only the store's own fields, and ends in exactly `AfterRestore` of the state before |
| `UserStore.RestoreIdempotent` | src/stores/userStore.js:40-52 | restoring twice has the same effect as restoring once |
| `UserStore.AfterUpdateUsername` | src/stores/userStore.js:54-57 | only the username changes in memory and only the `"username"` key in storage; the user id, the token and `isAuthenticated` are unchanged |
| `UserStore.Store.UpdateUsername` | src/stores/userStore.js:54-57 | the fields and `localStorage` after the call are exactly `AfterUpdateUsername` of the state before |
| `UserStore.RestoreAfterLogin` | src/stores/userStore.js:18-50 | after a login with a non-empty user id, restoring from the written storage into an empty store succeeds with that user id, the token (given or the user id) and the username (or `""`) |
| `UserStore.ReloadAfterLogin` | src/stores/userStore.js:18-50 | on objects: log in through one store, create a second store on the same `localStorage`, restore, and the second store is authenticated with that session |
| `WebStorage.LocalStorage.GetItem` | src/stores/userStore.js:41-43 | `getItem` on the object answers the same as `Lookup` on its contents: the stored string, or null exactly when the key is absent |
| `StoreLifetime.RunTouchesOnlySessionKeys` | src/stores/userStore.js:17-57 | over any sequence of actions, every storage key other than the three keeps its entry or its absence |
| `StoreLifetime.RunKeepsPersisted` | src/stores/userStore.js:17-57 | every sequence of actions keeps the invariant that an authenticated session has its id and token in storage |
| `StoreLifetime.ReloadKeepsIdentity` | src/stores/userStore.js:8-57 | at any point of a page's life where the store is authenticated, a fresh store restoring from the same storage succeeds with the same user id and token |

## Left out

- `UserStore.Store.Login`: the user id is a string; JavaScript's coercion of a null or non-string value by `setItem` (storing `"null"`) is not modelled.
- `UserStore.Store.UpdateUsername`: the new username is a string; `setItem("username", null)` storing `"null"` is not modelled.
- Pinia and Vue machinery (`defineStore`, `ref`, `computed`, `persist: false`): the refs are plain fields and `isAuthenticated` a function of them; reactivity and the store being a singleton are not modelled.
- The API modules (`src/api/Dictionary.js`, `src/api/FileTracker.js`, `src/api/Library.js`, `src/api/PasswordAuthentication.js`): they forward HTTP requests to a backend whose behaviour is not visible; their local `typeof` checks are vacuous under Dafny's static types.
- The route table (`src/router/index.js`): declarative, with no guard or authentication metadata to model.
- `localStorage` quota errors, other tabs writing the same storage, and anything outside the store writing its three keys are not modelled; the lifetime lemmas assume only the store writes them.
