# PKKMB portal authentication store, modelled in Dafny

The portal's single-page client keeps one shared authentication record
`{token, user, initialized}` and mirrors the token into the browser's local
storage under the key `pkkmb_token`. The object returned by `useAuthStore`
exposes `init` (restore a session from the stored token by asking the backend
who it belongs to), `login`, `registerStudent`, `clearAuth` (logout) and three
derived flags `isLoggedIn`, `isAdmin` and `isStudent`. The helper `setAuth` is
not exposed; `login` and `registerStudent` call it. The model keeps it as a
method of its own so that both can use it.

The project has four modules:

- `Wrappers` (`wrappers.dfy`): `Option` for JavaScript's `T | null`, and `Outcome`, the result of one network request. `Outcome` is either the decoded body or the message of the error the HTTP client threw.
- `AuthTypes` (`auth_types.dfy`): `UserRole`, `AuthUser` and `AuthResponse` from `src/types/auth.ts`.
- `AuthState` (`auth_state.dfy`): the session as a value (`Session`: the record plus the storage map). It holds the derived flags, each operation as a transition function with its contract, the invariant `Consistent`, and lemmas over arbitrary sequences of exported operations (`Run`).
- `AuthStore` (`auth_store.dfy`): the class `AuthStore`, whose fields the methods assign in place. Each method's postcondition ties the new fields (`View()`) to the matching `AuthState` transition of the old ones. A client method shows a rejected restore followed by an administrator login.

JavaScript truthiness is written out. `!state.token` and `state.token && state.user` treat both `null` and `""` as "no token". So `HasToken(t)` means `Some(t)` with `t != ""`. A store whose stored token is `""` sends no request in `init`. `setAuth` with an empty token still stores and persists it, but `isLoggedIn` stays false.

Each network request (`GET /api/auth/me`, `POST /api/auth/login`, `POST /api/auth/register`) is replaced by the `Outcome` it produced, passed in as a parameter. `Init`, `Login` and `RegisterStudent` also return the `Request` they send. For `init` that request is absent when there is no token, which is how "makes no request" is stated. `SetAuth` and `ClearAuth` send nothing.

What the rest of the source shows, and what the model therefore does not include:

- The router in `src/router/index.ts` is a table of four public routes with no navigation guard and no auth or role metadata, so no guard is modelled.
- `src/main.ts:7` mounts the application without calling `init`, so there is no start-up ordering to model.
- `registerStudent` (`src/stores/auth.ts:58-65`) stores whatever role the response carries. Nothing in the store makes a registered account a student, and nothing in the model does either.
- In the model, where every operation is one atomic step, `Consistent` holds in every reachable state: the persisted token equals the in-memory token, and a user is held only together with a token. Interleavings of the real asynchronous code can break it (see "## Left out").

## Model

| member | source | states |
|---|---|---|
| AuthState.Persisted | src/stores/auth.ts:5-12 | what `localStorage.getItem` gives for the constant key `TokenKey` = `pkkmb_token`: the stored string, or null when the key is absent |
| AuthState.HasToken | src/stores/auth.ts:35 | JavaScript truthiness of the token: false for null and for the empty string, true for any other string |
| AuthState.IsLoggedIn | src/stores/auth.ts:18 | `isLoggedIn`: the token is truthy and a user is held |
| AuthState.IsAdmin | src/stores/auth.ts:19 | `isAdmin`: a user is held and its role is admin |
| AuthState.IsStudent | src/stores/auth.ts:20 | `isStudent`: a user is held and its role is student |
| AuthState.Initial | src/stores/auth.ts:7-15 | the start-up record takes its token from storage, has no user, is not initialized, is consistent, and no flag holds |
| AuthState.SetAuth | src/stores/auth.ts:22-26 | token and user become the response's, storage holds the token under the key and nothing else in storage changes, `initialized` is kept; logged in iff the token is non-empty, admin/student iff the user's role says so |
| AuthState.ClearAuth | src/stores/auth.ts:28-32 | token and user become null, the key is removed and no other key changes, `initialized` is kept, the result is consistent and no flag holds |
| AuthState.InitRequest | src/stores/auth.ts:35-40 | `init` sends a request iff the token is truthy, and that request is `/api/auth/me` carrying the in-memory token as bearer |
| AuthState.Init | src/stores/auth.ts:34-47 | always ends initialized; without a token changes nothing else; on success sets only the user; on failure clears the session like `clearAuth`; keeps consistency; logged in afterwards iff there was a token and the request succeeded |
| AuthState.Authenticate | src/stores/auth.ts:49-65 | on failure the session is unchanged and the same error is returned; on success the session is `setAuth` of the response and the response's user is returned, which is then the stored user with the token persisted; keeps consistency and `initialized` |
| AuthState.RoleFlagsExclusive | src/stores/auth.ts:18-20 | `isAdmin` and `isStudent` never hold together; with no user neither flag nor `isLoggedIn` holds; with a user exactly one role flag holds |
| AuthState.LoggedInIsPersisted | src/stores/auth.ts:18 | in a consistent session, being logged in means a non-empty token is in storage |
| AuthState.RunPreservesConsistent | src/stores/auth.ts:22-65 | every sequence of `clearAuth`, `init`, `login` and `registerStudent` keeps the persisted token equal to the in-memory token and never holds a user without a token |
| AuthState.ReachableConsistent | src/stores/auth.ts:7-15 | every state reachable from start-up, whatever storage held, is consistent |
| AuthState.RunKeepsInitialized | src/stores/auth.ts:28-65 | no sequence of operations resets `initialized` to false |
| AuthState.InitializedAfterInit | src/stores/auth.ts:44-46 | once `init` has run, with either outcome, the store is initialized after any later operations |
| AuthState.FailedSignInLeavesSession | src/stores/auth.ts:49-65 | any number of failed logins (lines 50-54) and registrations (lines 59-63) leave the whole session, storage included, exactly as it was |
| AuthStore.AuthStore.constructor | src/stores/auth.ts:7-15 | the fields are the start-up record built from the given storage, and the object is valid |
| AuthStore.AuthStore.SetAuth | src/stores/auth.ts:22-26 | assigns token and user, writes the token into storage, keeps `initialized`, and leaves the object valid |
| AuthStore.AuthStore.ClearAuth | src/stores/auth.ts:28-32 | nulls token and user, removes the key from storage, keeps `initialized`, and leaves the object valid |
| AuthStore.AuthStore.Init | src/stores/auth.ts:34-47 | sends exactly `InitRequest` of the old state, ends in `Init` of the old state with the outcome, ends initialized, and keeps validity |
| AuthStore.AuthStore.Login | src/stores/auth.ts:49-56 | sends the login request with the given credentials; new state and returned result are `Authenticate` of the old state; a failure changes nothing; keeps validity |
| AuthStore.AuthStore.RegisterStudent | src/stores/auth.ts:58-65 | sends the registration request with the given name and credentials; new state and returned result are `Authenticate` of the old state; a failure changes nothing; keeps validity |

## Left out

- The HTTP client (`src/lib/api.ts`) is not part of this model. Its `fetch`, JSON encoding, headers, base URL and error-message fallback are replaced by the `Outcome` each request produced.
- Asynchrony and Vue reactivity are left out. Each operation is one atomic step, and the flags are plain predicates rather than cached `computed` values.
- Interleavings while a request is pending are not modelled. Overlapping `login` calls are one example. Three races around `init`, which awaits `/api/auth/me` at `src/stores/auth.ts:40`, are others:
  - `clearAuth` runs while `init` waits, and the request then succeeds. Line 41 then sets a user while the token is null. This is the only one of the three that breaks the atomic-step invariant `Consistent`.
  - `login` or `registerStudent` finishes while an `init` for an older token is pending, and that `init` then fails. Line 43 then clears the session that just signed in and removes its persisted token, a silent logout. The resulting state is still consistent.
  - The same sign-in, but the older-token `init` succeeds. Line 41 then pairs the new token with the user of the old token. Storage and token still agree, so `Consistent` does not catch this.
- Storage is modelled as a map that only this store writes and whose writes always succeed. Three things the model therefore does not capture:
  - `localStorage.setItem` can throw, for example when the quota is full. At `src/stores/auth.ts:25` that happens after lines 23-24 already set token and user, so `login` rejects with the session changed and storage stale.
  - Other tabs of the same origin share the `pkkmb_token` key. A logout in another tab removes the key while this tab keeps `state.token`.
  - The HTTP client casts the reply body without checking it (`src/lib/api.ts:21,25`). A success reply whose body is not JSON becomes `{}`, so `setAuth` would set `state.token` to `undefined` and store the string "undefined". The model's `AuthResponse` always carries a string token.
- Callers can assign the exported `state` record directly. The model does not capture this, which is why the methods do not require `Valid()` and only promise to keep it.
- `AuthUser.id` is a JavaScript number. It is modelled as an unbounded integer, since the store only copies it.
- The router, the bootstrap, the scroll-reveal directive and the styling configuration carry no authentication behaviour and are not modelled.
