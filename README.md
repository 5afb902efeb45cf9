# Hazard and auth stores of njiasalama

njiasalama is a map-based hazard-reporting client. Its shared state lives in
two Svelte store modules:

- the hazard store (`src/lib/stores/hazardStore.js`) holds the list
  `hazards` and the `selectedHazard`, and exports `fetchHazards`,
  `addHazard` and `voteHazard`;
- the auth store (`src/lib/stores/authStore.js`) holds the signed-in `user`
  and an `authState` object `{ loading, error }`, and exports `checkSession`
  and `signOut`.

Each exported operation awaits one call to the Supabase backend and then
may change the stores; `voteHazard` never does. This project models that
state and those changes. The backend call is not modelled: its outcome is a
parameter of the operation.

- `remote.dfy` (module `Remote`): `Option` for values that may be `null`,
  and `Response`, the `{ data, error }` object a table query resolves with.
  Both parts may be present at once. As in the code, `error` is examined
  first.
- `hazards.dfy` (module `Hazards`): the `Hazard` row. `Entry` is a list
  element: a row, or `undefined`. There are pure transition functions
  (`AfterFetch`, `AfterAdd`, `Step`) and `Run`, which folds a sequence of
  settled operations. The class `HazardStore` has the two stores as fields
  and one method per exported operation. Each method's contract ties it to
  `Step`, so the lemmas about `Run` apply to any sequence of method calls.
- `auth.dfy` (module `Auth`) has the same layout for the auth store, with
  the class `AuthStore`.

The hazard store is not optimistic. `addHazard` changes nothing until the
server answers. On success it appends `data[0]` and returns it. When the
server returns an empty array, `data[0]` is `undefined`, and the code appends
and returns that value. The model keeps this behaviour: the element is
`Entry.Undefined`. It is not assumed away. `fetchHazards` replaces the list
wholesale. Earlier entries are dropped, and no merge takes place.

## Model

| member | source | states |
|---|---|---|
| Hazards.Rows | src/lib/stores/hazardStore.js:29-30 | the list that `hazards.set(data)` stores has exactly the returned rows, in the order received |
| Hazards.First | src/lib/stores/hazardStore.js:47-48 | `data[0]` is `undefined` exactly when `data` is empty, and otherwise the first row |
| Hazards.AfterFetch | src/lib/stores/hazardStore.js:21-32 | an error leaves the list unchanged; a response with neither error nor data leaves it unchanged; data replaces the list with exactly those rows, in order |
| Hazards.AfterAdd | src/lib/stores/hazardStore.js:37-51 | with an error, or with neither error nor data, the list is unchanged and the result is null; with data, the list grows by exactly one, every earlier element keeps its position, and the new last element is `data[0]`, which is also the returned value |
| Hazards.SelectedHazardNeverWritten | src/lib/stores/hazardStore.js:19-67 | no sequence of fetches, inserts and votes changes `selectedHazard` |
| Hazards.VotesChangeNothing | src/lib/stores/hazardStore.js:58-67 | any sequence of votes, whatever their outcome, leaves both stores exactly as they were |
| Hazards.AppendOnlyUntilReplaced | src/lib/stores/hazardStore.js:43-50 | until a fetch returns data, the list is the starting list followed by every successfully inserted `data[0]`, in call order |
| Hazards.LastReplaceDecides | src/lib/stores/hazardStore.js:29-30 | after the last fetch that returned data, the list is exactly those rows followed by the later successful inserts; nothing from before that fetch remains |
| Hazards.HistoryForgottenAfterReplace | src/lib/stores/hazardStore.js:29-30 | two stores that run the same operations from a data-returning fetch on end with the same list, whatever each held before |
| Hazards.HazardStore.constructor | src/lib/stores/hazardStore.js:16-19 | initially `hazards` is empty and `selectedHazard` is null |
| Hazards.HazardStore.FetchHazards | src/lib/stores/hazardStore.js:21-32 | the new list is the old one on error or on no data, and exactly the returned rows on data; `selectedHazard` is untouched; the transition is `Step` with a fetch |
| Hazards.HazardStore.AddHazard | src/lib/stores/hazardStore.js:37-51 | on error or no data it returns null and leaves the list unchanged; on data it appends `data[0]` and returns that same element; `selectedHazard` is untouched |
| Hazards.HazardStore.VoteHazard | src/lib/stores/hazardStore.js:58-67 | nothing local changes, whether or not the vote fails |
| Auth.SessionUser | src/lib/stores/authStore.js:20-24 | the user is set exactly when a session is returned, and is then that session's user |
| Auth.AfterCheck | src/lib/stores/authStore.js:25 | `loading` becomes false, `error` becomes the returned error, and every other field of `authState` is kept |
| Auth.LoadingUntilChecked | src/lib/stores/authStore.js:13-25 | `loading` is true after a sequence of operations exactly when it was true before and no session check ran |
| Auth.AuthStateOnlyChangedByCheck | src/lib/stores/authStore.js:28-31 | a sequence of sign-outs leaves `authState` exactly as it was |
| Auth.ErrorOfLastCheck | src/lib/stores/authStore.js:25 | `authState.error` is the error returned by the last session check |
| Auth.OtherFieldsKept | src/lib/stores/authStore.js:25 | fields of `authState` other than `loading` and `error` survive every operation |
| Auth.AuthStore.constructor | src/lib/stores/authStore.js:10-16 | initially `user` is null, `loading` is true and `error` is null |
| Auth.AuthStore.CheckSession | src/lib/stores/authStore.js:18-26 | the user is the session's user if a session came back and null otherwise, even when an error came back too; `loading` is false; `error` is the returned error; other fields are kept |
| Auth.AuthStore.SignOut | src/lib/stores/authStore.js:28-31 | the user is null whatever the sign-out returned, and `authState` is unchanged |

## Left out

- `src/lib/supabaseClient.js`: it only builds the client, with the URL and key from the environment and placeholder fallbacks. It is not part of this model.
- `src/lib/stores/mapStore.js` and `src/lib/stores/routeStore.js`: they hold only initial constants and have no operations.
- The Supabase query builder (`from`, `select`, `eq`, `insert`) and `auth.getSession`/`auth.signOut`: only the outcome of each call is modelled, as a parameter. The `is_active = true` filter runs on the server, so nothing local depends on it.
- The row sent by `addHazard` and the vote row sent by `voteHazard` go only to the server. The model takes them as parameters and does not use them.
- Promises that reject: the model assumes every remote call resolves. If `getSession` or `signOut` threw, the code would skip the store update that follows it.
- Async scheduling: each operation is taken as atomic once its result arrives. Operations whose calls overlap are not modelled.
- `console.error` logging, and the Svelte subscription and notification mechanics of `writable`.
- JavaScript truthiness of error values: an error is either present or null. A falsy non-null error, such as an empty string, is not modelled.
- Hazard fields: `severity_rating` is a JavaScript number, modelled as an integer. No code computes with it.
- The type of `authState.error`: it is declared as an error, null or a string. The model keeps only the error or null that `checkSession` writes.
