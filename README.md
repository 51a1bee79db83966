# Session handling of the flsys admin dashboard, in Dafny

This project models the client-side session handling of the flsys
administrative dashboard (a Vue front end for a federated / centralized
machine-learning platform) and proves properties of it with Dafny:

- **the session store** (`src/store/auth.ts`): the current admin (`user`), the
  `isAuthenticated` flag and the persisted `user` entry of `localStorage`,
  changed by `initAuth`, `login`, `register` and `logout`;
- **the HTTP client** (`src/services/api.ts`): the request interceptor that
  attaches `Authorization: Bearer <token>`, the response interceptor that turns
  any 401 into "remove `user`, go to `/login`", and the `login`, `logout` and
  `checkAuth` calls, with `login` merging the returned admin with its token;
- **the router** (`src/router/index.ts`): the route table and its
  `meta.requiresAuth` flags, and the global `beforeEach` guard, which starts
  `initAuth` for an unauthenticated session and then allows the navigation or
  redirects it to `login` or `home`.

Files: `wrappers.dfy` (Option), `browser.dfy` (the `Window` class: storage,
navigation log, console errors), `api.dfy`, `auth_store.dfy`, `router.dfy`.

How the outside world is represented:

- every remote call is an input, `Http<T>`: fulfilled with its data, or
  rejected with an `HttpError` whose optional response carries the status and
  the optional `data.message`; `login`, `logout` and `checkAuth` pass it through
  the response interceptor, so their 401 side effects are part of the model;
- `JSON.stringify` / `JSON.parse` are a `Json` value holding two functions; the
  lemmas that need it assume only `Lawful`: what `stringify` writes parses back
  to the same admin and is never empty;
- `localStorage` is a map from key to text; `getItem` followed by JavaScript's
  truthiness test is `SavedEntry` (a missing entry and an empty one both count
  as absent); `window.location.href = ...` and `router.push(...)` append to a
  navigation log; `console.error` appends to an error log;
- `initAuth` has one `await`. It is split into `InitAuthStart`, its synchronous
  part, which the guard runs before reading the flag, and `InitAuthResume`, its
  continuation once `checkAuth` settles; `InitAuth` runs both in order.

Behaviour of the code worth knowing, all proved in the model:

- The guard's comment at `src/router/index.ts:59` reads as "a page that needs
  authentication is redirected to the login page when the user is not logged
  in". The guard does not await `initAuth`, but the synchronous part of
  `initAuth` sets `isAuthenticated` as soon as the persisted entry parses, so
  an unauthenticated visit with a saved admin is let through before
  `checkAuth` has answered (`Router.ProtectedPageWithSavedAdmin`).
- The response interceptor rejects again with the same error
  (`Api.InterceptResponse`), so a 401 from `POST /auth/login` also reaches the
  store's `login`, which rejects with the server's message; the interceptor
  has by then removed the persisted entry and assigned `/login` to the page
  location.
- Every store transition keeps "authenticated iff an admin is held" (`Valid`).
  The response interceptor, however, removes only the persisted entry: after a
  401 from some other call the in-memory session stays authenticated until the
  page loads again.
- Every request through `api` runs the request interceptor first, so an
  unparseable persisted entry is logged once per request, including the
  `login`, `logout` and `checkAuth` requests of the store.
- The router is neither strict nor case sensitive: `/Inference/` is the
  inference page and is protected like `/inference`
  (`Router.VariantPathIsProtected`).

## Model

| member | source | states |
|---|---|---|
| `Browser.SavedEntry` | src/store/auth.ts:12-13 | the stored text is used exactly when the `user` key is present and its text is non-empty |
| `Browser.SavedEntryAfterWrites` | src/store/auth.ts:12-13 | after `setItem` the entry reads back unless it is empty, after `removeItem` it reads as absent, and other keys are unaffected |
| `Api.MergeLogin` | src/services/api.ts:72-77 | the merged admin keeps every field of `response.data.admin` and carries `response.data.token` as its token |
| `Api.MergeLoginInjective` | src/services/api.ts:72-77 | two login responses give the same merged admin exactly when they are equal, so the merge loses nothing |
| `Api.StoredToken` | src/services/api.ts:23-27 | a token is found exactly when the entry is present and non-empty, parses, and has a non-empty `token`; that token is the found one |
| `Api.BearerHeader` | src/services/api.ts:28 | the header is `Bearer ` followed by the token, from which the token can be read back |
| `Api.AttachToken` | src/services/api.ts:21-35 | the same config is returned; its headers gain `Authorization` exactly when a token is stored and are otherwise unchanged; an unparseable entry is logged and never throws; storage and location are untouched |
| `Api.InterceptResponse` | src/services/api.ts:8-18 | fulfilled and rejected results pass through unchanged; a 401 removes `user` and assigns `/login` once; any other result, including a rejection without a response, changes nothing |
| `Api.RequestLog` | src/services/api.ts:30-31 | the request interceptor logs the parse error exactly when the persisted entry is present, non-empty and unparseable, and logs nothing else |
| `Api.Send` | src/services/api.ts:8-35 | a request settles as it did on the wire; the request interceptor's log and the response interceptor's 401 effects both apply |
| `Api.Login` | src/services/api.ts:66-78 | succeeds exactly when the request does, with the merged admin; a failure keeps its error; both interceptors' effects apply |
| `Api.Logout` | src/services/api.ts:81-83 | settles as the request does, with both interceptors' effects |
| `Api.CheckAuth` | src/services/api.ts:86-89 | settles as the request does, with both interceptors' effects |
| `Api.PersistedTokenIsSent` | src/services/api.ts:22-29 | once an admin with a non-empty token is persisted, the interceptor finds exactly that token |
| `Api.LoginTokenIsSent` | src/services/api.ts:66-78 | after the admin from a login is persisted, requests carry `Bearer` with the login token |
| `Api.NoTokenAfterRemoval` | src/services/api.ts:23-27 | with the `user` entry removed no token is found, so no header is set |
| `AuthStore.InitAuthPrefix` | src/store/auth.ts:11-30 | no usable entry: nothing changes; a parseable entry: user is the parsed admin and the flag is set, storage kept; an unparseable entry: only the entry is removed; flag and user stay consistent |
| `AuthStore.InitAuthPrefixIdempotent` | src/store/auth.ts:12-30 | running the synchronous part of `initAuth` twice gives the same session as running it once |
| `AuthStore.ServerMessageOr` | src/store/auth.ts:54 | the rejection message is the server's non-empty `message` when there is one, else the fallback, and is never empty when the fallback is not |
| `AuthStore.LoginThenInitAuthRestores` | src/store/auth.ts:45-50 | what a successful login persists is what `initAuth` restores, with the flag set and the entry kept |
| `AuthStore.Store.constructor` | src/store/auth.ts:7-8 | a new store holds no admin and is not authenticated |
| `AuthStore.Store.InitAuthStart` | src/store/auth.ts:11-17 | the store's new state is the synchronous part of `initAuth` applied to the old one; a parse failure is logged; no navigation |
| `AuthStore.Store.InitAuthResume` | src/store/auth.ts:19-26 | when `checkAuth` fails, user, flag and the persisted entry are all cleared; when it succeeds the session is unchanged |
| `AuthStore.Store.InitAuth` | src/store/auth.ts:11-32 | no entry: nothing changes; parseable entry: restored if `checkAuth` succeeds, all cleared if it fails, with `/login` assigned on a 401 and nothing logged; unparseable: entry removed and logged, user and flag untouched |
| `AuthStore.Store.Login` | src/store/auth.ts:35-56 | an active admin becomes the session and is persisted; an inactive one is refused with the disabled-account message and nothing changes; a failed call is refused with the server message or the bad-credentials message, user and flag unchanged; the request's parse-error log applies |
| `AuthStore.Store.Register` | src/store/auth.ts:59-75 | success makes the three login updates with no active check; failure is refused with the server message or the registration-failed message and changes nothing |
| `AuthStore.Store.Logout` | src/store/auth.ts:78-91 | always resolves; always ends with no admin, flag cleared, `user` removed and a router push to `/login`, whether or not the remote call failed (a failure is logged after the request's parse-error log, if any) |
| `Router.EntriesUnder` | src/router/index.ts:14-45 | every location of a nested record is matched through all the records above it |
| `Router.LayoutPagesRequireAuth` | src/router/index.ts:14-18 | every page under the `/` layout requires authentication, inherited from the layout's `meta` |
| `Router.EntriesOfRoutes` | src/router/index.ts:7-46 | the route table yields exactly the login page, the five layout pages (the empty child path being `/`) and the layout, each with its matched records |
| `Router.FindPath` | src/router/index.ts:5-47 | a found location is in the table and its path matches, ignoring case and one trailing slash; none found means no location matches |
| `Router.FindPathFirst` | src/router/index.ts:5-47 | the lookup returns the first location whose path matches |
| `Router.ResolveKnownPaths` | src/router/index.ts:8-43 | each path of the table, in any case and with or without a trailing slash, resolves to its own name and matched records, and `/` to `home` |
| `Router.VariantPathIsProtected` | src/router/index.ts:24-28 | `/Inference/` resolves to the inference page under the layout, so an unauthenticated visit without a saved admin is redirected to `login` |
| `Router.ResolveRedirectNames` | src/router/index.ts:61-65 | the redirect targets `login` and `home` resolve to the login page and to `/` |
| `Router.OnlyLoginIsPublic` | src/router/index.ts:8-17 | among the table's locations, authentication is required exactly for those not named `login` |
| `Router.UnknownPathIsPublic` | src/router/index.ts:52 | a path that matches no table path, even ignoring case and one trailing slash, matches no record and does not require authentication |
| `Router.SomeRequiresAuth` | src/router/index.ts:52 | true exactly when some matched record has `meta.requiresAuth` true |
| `Router.Decide` | src/router/index.ts:60-69 | redirect to `login` iff auth is required and missing; redirect to `home` iff authenticated and the target is `login`; allow otherwise |
| `Router.Guard` | src/router/index.ts:50-70 | `initAuth` is started iff the session is unauthenticated; the decision reads the flag after its synchronous part; a session still unauthenticated then has no usable entry |
| `Router.BeforeEach` | src/router/index.ts:50-70 | the store's new state, the single decision passed to `next` and the started `initAuth` are those of `Guard`; no navigation of its own |
| `Router.ProtectedPageWithoutSavedAdmin` | src/router/index.ts:55-61 | unauthenticated with no entry, every layout page is redirected to `login` and nothing changes |
| `Router.ProtectedPageWithSavedAdmin` | src/router/index.ts:55-61 | unauthenticated with a parseable entry, every layout page is allowed, with the session restored before `checkAuth` answers |
| `Router.ProtectedPageWithUnparseableAdmin` | src/router/index.ts:55-61 | unauthenticated with an unparseable entry, the entry is dropped and every layout page is redirected to `login` |
| `Router.AuthenticatedLoginGoesHome` | src/router/index.ts:64-65 | an authenticated session is sent from `login` to `home` without `initAuth` |
| `Router.AuthenticatedPagesAllowed` | src/router/index.ts:60-68 | an authenticated session visits every layout page without `initAuth` |
| `Router.LoginRedirectSettles` | src/router/index.ts:60-68 | after a redirect to `login`, the guard allows the login page and changes nothing |
| `Router.HomeRedirectSettles` | src/router/index.ts:60-68 | after a redirect to `home`, the guard allows `/` and changes nothing |

## Left out

- JSON grammar: `JSON.stringify` / `JSON.parse` are abstract; a stored text
  that parses to something other than an admin record (`null`, a number) is
  not modelled, so `initAuth` never restores a `null` user with the flag set.
- Promise interleaving: between the synchronous part of `initAuth` and its
  continuation, and between a request and its response, other actions may run
  in the browser; the model runs each continuation when called, and does not
  model a 401 arriving after the user has navigated elsewhere.
- `localStorage.setItem` failing (a full quota): `login` and `register` would
  then reject with the fallback message after already setting the session;
  the model treats storage writes as always succeeding.
- The page reload caused by assigning `window.location.href`, and the guard
  run that `router.push('/login')` triggers: both are recorded as navigation
  requests only.
- `apiRegister`: it is imported by the store but not exported by
  `src/services/api.ts`, so its request is not modelled; its result is an input
  to `Register`, without the response interceptor.
- The request interceptor's error handler (`src/services/api.ts:36`) only
  rejects again with the same error; it is not modelled separately.
- The data calls `getModels`, `postPrediction`, `getTrainingHistory`,
  `getModelsWithTrainingLogs`, `getModelTrainingLog`: plain requests without
  logic of their own; their session effects are those of `Api.Send` (both
  interceptors), which is modelled.
- The performance page (training-history validation, display mode, upload
  handling) is outside the session handling modelled here.
- Route components, lazy page loading, and the router's ranking of paths:
  resolution is modelled for this table's static paths only (children before
  their parent; a path matches ignoring ASCII case and one trailing slash);
  percent-decoding, query strings and hashes are not modelled.
