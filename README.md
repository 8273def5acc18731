# party-buddy stores and HTTP client, modelled in Dafny

This project models the three parts of the party-buddy front end that hold state and rules:

- **The session store** (`src/stores/auth.ts`). It holds a `token` and a `user`. It derives
  `isAuthenticated` from the token's JavaScript truthiness and keeps the token in the `"token"`
  key of `localStorage`. Its operations are `login`, `register`, `logout`, and the startup block:
  read the stored token, then ask `/auth/user` for the user.
- **The wizard store** (`src/stores/wizard.ts`). It holds one draft `{date, time, location, artists}`.
  `resetForm` installs the literal default. `updateFormData` does a shallow spread merge.
- **The HTTP client's interceptors** (`src/services/api.ts`). The request interceptor adds
  `Authorization: Bearer <token>` when the stored token is truthy, reading storage at request time.
  The response interceptor passes successes through and rejects every error, 401 included.

Files:

- `js.dfy` (module `Js`): `Option` for values that may be `null`, `Truthy` for string truthiness, and
  `TokenStorage`, the one storage key, as an object shared by the session store and the client.
- `api.dfy` (module `Api`): the response, error and promise-outcome values (`Settled`), the request
  configuration, the response interceptor as functions, and `ApiClient.InterceptRequest`.
- `auth.dfy` (module `Auth`): the class `AuthStore`. Each method is proved equal to a transition
  function on the value `Session` (user, token, stored key): `AfterLogin`, `AfterRegister`,
  `AfterLogout`, `AtStartup`, `AfterHydration`. Lemmas relate several steps.
- `wizard.dfy` (module `Wizard`): the draft records, `Spread` (the merge),
  `ApplyUpdates`/`LastWrite` for sequences of updates, and the class `WizardStore`.

Server replies are method parameters of type `Settled<Response<...>>`: fulfilled with a response,
or rejected with an `HttpError`. The asynchronous startup is two steps. The constructor reads
storage and records whether the `/auth/user` request went out. `Hydrate(reply)` is the settling of
that request. Any other operation may run between the two, as in the source.

Behaviour of the code worth knowing:

- `isAuthenticated` is `!!token`, so an empty-string token counts as not authenticated.
- `login` and `register` store the token only when it is truthy. With a falsy token they still
  overwrite `token` and `user`. The previously stored token then stays in storage and is restored
  at the next start (lemma `StaleTokenSurvivesFalsyLogin`).
- `register` resolves with `false` when it received a truthy token and with `true` otherwise.
  The model keeps this polarity as written.
- The draft has the four fields declared in `wizard.ts`.

## Model

| member | source | states |
|---|---|---|
| `Api.OnResponse` | src/services/api.ts:20 | a successful response is fulfilled with that same response |
| `Api.OnResponseError` | src/services/api.ts:21-26 | every error is rejected with that same error; the 401 branch changes nothing |
| `Api.InterceptResponse` | src/services/api.ts:19-27 | the response interceptor is transparent: the outcome the caller sees equals the transport's outcome, success or error |
| `Api.ApiClient.InterceptRequest` | src/services/api.ts:10-16 | storage is read at call time; a truthy token sets `Authorization` to `"Bearer " + token`; otherwise the config is returned unchanged; no other header and no other config field changes |
| `Auth.AuthStore.IsAuthenticated` | src/stores/auth.ts:10 | true exactly when the token is present and not the empty string; the user is not consulted |
| `Auth.AfterLogin` | src/stores/auth.ts:12-25 | rejection: the session is unchanged and the same error propagates; success: token and user come from the response, result `true`, storage gets a truthy token and otherwise keeps its old value |
| `Auth.AfterRegister` | src/stores/auth.ts:27-45 | rejection: unchanged, same error; success: token and user come from the response, result is `false` exactly when the token is truthy, a truthy token is stored, otherwise storage keeps its old value |
| `Auth.AfterLogout` | src/stores/auth.ts:47-51 | from any state: no user, no token, storage key removed |
| `Auth.AtStartup` | src/stores/auth.ts:53-55 | user unknown; token is the stored value when truthy, `null` otherwise; storage only read |
| `Auth.AfterHydration` | src/stores/auth.ts:56-63 | success sets the user to the response body and changes nothing else; failure is exactly `logout`: unauthenticated, no user, storage key removed |
| `Auth.AuthStore.constructor` | src/stores/auth.ts:53-55 | the new store's state is `AtStartup` of the stored token; the user request is pending exactly when that token is truthy |
| `Auth.AuthStore.Login` | src/stores/auth.ts:12-25 | new fields, storage and promise outcome are those of `AfterLogin` on the old state; `userRequestPending` untouched |
| `Auth.AuthStore.Register` | src/stores/auth.ts:27-45 | new fields, storage and promise outcome are those of `AfterRegister` on the old state |
| `Auth.AuthStore.Logout` | src/stores/auth.ts:47-51 | new fields and storage are those of `AfterLogout` |
| `Auth.AuthStore.Hydrate` | src/stores/auth.ts:56-63 | the pending request settles once; new state is `AfterHydration` of the old state, which may already differ from the startup state |
| `Auth.StoreAuthenticatedIsSessionAuthenticated` | src/stores/auth.ts:10 | the store's `isAuthenticated` is the truthiness of the token in its state, the predicate the session lemmas use |
| `Auth.LogoutIdempotent` | src/stores/auth.ts:47-51 | logging out twice equals logging out once, and the result is not authenticated |
| `Auth.AuthenticationIgnoresUser` | src/stores/auth.ts:10 | changing the user never changes whether the session is authenticated |
| `Auth.FailedSignInChangesNothing` | src/stores/auth.ts:21-24 | a rejected request to login or register leaves user, token and storage as they were and rejects with the same error |
| `Auth.RegisterMatchesLogin` | src/stores/auth.ts:34-40 | register reaches the same state as login on the same reply; its result is `false` exactly when the token is truthy |
| `Auth.LoginSurvivesRestart` | src/stores/auth.ts:17-18 | after a login with a truthy token, a store built over the same storage sends the user request and after a successful answer is authenticated with that token and user |
| `Auth.StaleTokenSurvivesFalsyLogin` | src/stores/auth.ts:15-19 | a login with a falsy token leaves the store unauthenticated, while the old stored token remains and authenticates the next start |
| `Auth.RejectedStoredTokenSignsOut` | src/stores/auth.ts:53-63 | a startup whose user request is rejected ends with no user, no token and no stored key |
| `Auth.StartupAuthentication` | src/stores/auth.ts:53-55 | at startup the store is authenticated exactly when it sends the user request, and the user is not yet known |
| `Auth.RequestAfterLogin` | src/services/api.ts:10-14 | a client created before a login with a truthy token sends that token as its bearer credential on the next request |
| `Wizard.Spread` | src/stores/wizard.ts:43-48 | each key present in the partial takes its value whole, each absent key keeps the old value; the empty partial changes nothing |
| `Wizard.ApplyUpdatesSnoc` | src/stores/wizard.ts:43-48 | one more `updateFormData` call at the end of a trace is one more spread over the trace's result, so `ApplyUpdates` describes any sequence of calls |
| `Wizard.SpreadIdempotent` | src/stores/wizard.ts:43-48 | merging the same partial twice equals merging it once |
| `Wizard.ArtistsReplacedNotAppended` | src/stores/wizard.ts:44-47 | merging `artists` replaces the list; the result is not the old list with the new one appended |
| `Wizard.LastWriteWins` | src/stores/wizard.ts:43-48 | after any sequence of updates, each field holds the value of the last update that set it, or its starting value |
| `Wizard.EmptyUpdatesChangeNothing` | src/stores/wizard.ts:43-48 | a sequence of updates with no keys leaves the draft as it was |
| `Wizard.WizardStore.constructor` | src/stores/wizard.ts:27-32 | the initial draft is `{date: null, time: null, location: null, artists: []}` |
| `Wizard.WizardStore.ResetForm` | src/stores/wizard.ts:34-41 | after any earlier state the draft equals the initial draft, so resetting twice equals resetting once |
| `Wizard.WizardStore.UpdateFormData` | src/stores/wizard.ts:43-48 | the new draft is `Spread` of the old draft and the partial |

## Left out

- Storage access never throws: a failing `setItem` inside `login`/`register` (src/stores/auth.ts:18, :37) would reject after `token`/`user` changed, and a failing `getItem` would make store creation (src/stores/auth.ts:53) or a request (src/services/api.ts:11) fail; the model has no such outcome.
- The HTTP transport (axios), the base address and its environment variables
  (src/services/api.ts:4), and the default `Content-Type` header: the server's replies are parameters.
- The login and register request bodies (username, password, email, name): only the reply matters to the store.
- `console.error` logging in `login` and `register`: it has no effect on state.
- Promises and the event loop: each operation is one atomic step. The one asynchronous interleaving
  that matters, other operations running before the startup user request settles, is kept.
- Vue reactivity (`ref`, `computed`) and Pinia's singleton stores: stores are plain objects.
- Object identity of the draft and its collections: drafts are values, so aliasing between an old
  and a new default cannot be expressed.
- A key present in a partial draft with the value `undefined`: `None` means the key is absent.
- JavaScript numbers: latitude and longitude are `real` and the other numbers `int`, without
  floating-point rounding. A `Date` is its millisecond timestamp.
- src/services/music.ts and src/services/event.ts: each returns its response's data verbatim;
  they are not part of this model.
- src/main.ts and src/router/index.ts: theme, plugin and route configuration, not part of this model.
- The `User` type of `@/types` is not part of this model; `User` is a record the store never inspects.
