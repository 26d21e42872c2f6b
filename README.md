# PlayHive session and watchlist store, modelled in Dafny

PlayHive is a browser movie/series watchlist tracker. This project models
its two stateful library files:

- `src/lib/auth.ts`, the session layer. It handles login (with a hardcoded
  admin pair), registration, logout and the current-user lookup.
- `src/lib/data.ts`, the store. It holds each user's watchlist and the
  global, admin-curated trending list.

Both files sit on the browser's two key/value partitions. The session
partition's `"user"` key holds the active session. The local partition's
`"user"` key holds the one remembered local account; the same partition
also holds `playHive_watchlist_<userId>` and `playHive_trending`. Each file
keeps its own one-way `useLocalStorageFallback` flag, which switches every
later call from the database to local storage.

Files:

- `storage.dfy` (module `Storage`): optional values; `Stored` (what a key
  holds: `Parses(v)` or `Corrupt` text that `JSON.parse` rejects); `Reply`
  (what the database query answers: rows or `Unavailable`); `Result` and
  `Outcome` for thrown errors.
- `lists.dfy` (module `Lists`): `Array.prototype.filter` on sequences and
  its algebra.
- `auth.dfy` (module `Auth`): class `SessionManager` with fields
  `sessionSlot`, `localSlot` and `fallback`.
- `data.dfy` (module `Data`): media items, the keys, generated ids, the
  seed trending list, and class `WatchlistStore`. The class has fields
  `fallback`, `watchlists` (the local partition's watchlist keys),
  `trending` and `trendingCache`. It holds a reference `auth` to the
  session manager whose current user it asks for.
- `scenarios.dfy` (module `Scenarios`): callers that chain operations. They
  show round trips and isolation from the contracts alone.

The database `query` helper is an oracle. Each operation that may ask it
takes the answer as a parameter; the answer is read only while the flag is
unset. `generateId`, `Date.now()` and `new Date().toISOString()` are also
parameters (`freshId`, `millis`, `isoNow`). The environment test
`typeof window !== 'undefined'` is the constructor parameter `browser`.

Where the code and the design description of the system disagree, the model
follows the code:

- The fallback watchlist is in insertion order: add appends at the end. Only
  the SQL path sorts newest first, and that order belongs to the query oracle.
- In database mode, a login with no matching row does not surface
  "Invalid credentials". The error is thrown and caught in the same `try`.
  The catch sets the flag, and the call continues on the local path.
- `getCurrentUser` reads the local `"user"` key in every mode, not only in
  fallback mode. A session key that does not parse yields no user, even if
  the local key holds one.
- Fallback registration rejects an e-mail only when it equals the one
  remembered local user's. Registering replaces that user.
- No default thumbnail is chosen in `addTrendingMovie`. The random default
  is picked by the form that calls it.

## Model

| member | source | states |
|---|---|---|
| Storage.Parsed | src/lib/auth.ts:221-239 | a key yields a value exactly when it is present and parses; that value is what the key holds |
| Lists.Filter | src/lib/data.ts:374 | the result keeps exactly the elements of the input that the predicate accepts, and is no longer than the input |
| Lists.FilterAppend | src/lib/data.ts:374 | filtering a concatenation is the concatenation of the filtered parts, in order |
| Lists.FilterKeepsAll | src/lib/data.ts:374 | when every element is accepted the filter returns the input unchanged |
| Lists.FilterIdempotent | src/lib/data.ts:374 | filtering twice by one predicate equals filtering once |
| Auth.CurrentUserOf | src/lib/auth.ts:221-240 | there is a current user iff the session key parses, or the session key is absent and the local key parses; it is the session record when the session key is present, else the local record |
| Auth.SessionManager.constructor | src/lib/auth.ts:12-19 | the flag starts true exactly in a browser; the two keys hold what the partitions held |
| Auth.SessionManager.IsAuthenticated | src/lib/auth.ts:242-244 | true exactly when there is a current user |
| Auth.SessionManager.IsAdmin | src/lib/auth.ts:246-249 | true exactly when there is a current user whose isAdmin is true |
| Auth.SessionManager.EnableFallback | src/lib/auth.ts:21-24 | the flag is set afterwards, whatever it was |
| Auth.SessionManager.Login | src/lib/auth.ts:36-118 | empty email or password fails with nothing changed. The admin pair signs in the admin record in every mode, leaving the flag. A matching database row becomes the session. Otherwise the flag is set and the local path compares only the e-mail: success copies the local record into the session; an absent or different local user is InvalidAccount; an unparsable local key is LoginFailed; failures leave the session. The flag never goes back to false |
| Auth.SessionManager.Register | src/lib/auth.ts:120-213 | missing fields and password mismatch fail with session, local key and flag unchanged. A database e-mail hit is EmailTaken with the flag unchanged. A database insert signs the new non-admin user in, leaving the local key. Otherwise the flag is set: an unparsable local key is RegistrationFailed, the same e-mail as the remembered user is EmailTaken, else the new user replaces the remembered one in both keys and is the current user |
| Auth.SessionManager.Logout | src/lib/auth.ts:215-219 | both keys are absent afterwards; no current user, not authenticated, not admin |
| Data.Draft.Stamp | src/lib/data.ts:328-332 | the new item carries the given id and time and exactly the fields of the draft |
| Data.WatchlistKey | src/lib/data.ts:232 | a watchlist key never equals the remembered-user key or the trending-cache key |
| Data.WatchlistKeyInjective | src/lib/data.ts:232 | two user ids share a watchlist key iff they are equal |
| Data.OtherWatchlistUnchanged | src/lib/data.ts:335-336 | writing one user's watchlist key leaves what every other user's watchlist reads as |
| Data.Decimal | src/lib/data.ts:330 | the rendering of a millisecond count is a non-empty string of decimal digits, one digit exactly below ten |
| Data.DecimalInjective | src/lib/data.ts:330 | two counts render alike iff they are equal |
| Data.TimeIdInjective | src/lib/data.ts:330 | two time-based ids coincide iff they have the same type and the same millisecond |
| Data.WithoutIdContents | src/lib/data.ts:374 | after removal no item has the id, and every item with another id is still there |
| Data.WithoutIdIdempotent | src/lib/data.ts:374 | removing the same id twice is removing it once |
| Data.WithoutAbsentId | src/lib/data.ts:374 | removing an id no item carries leaves the list unchanged |
| Data.RemoveAfterAdd | src/lib/data.ts:326-376 | appending an item and then removing its id gives the list with that id removed, order kept |
| Data.ByGenreAfterAdd | src/lib/data.ts:410-411 | the genre view of an appended list is the old view followed by the new item exactly when it has the genre |
| Data.ByGenreContents | src/lib/data.ts:411 | every item returned has the genre and every item of the genre is returned |
| Data.SeedTrending | src/lib/data.ts:28-205 | sixteen movies with ids movie-1 to movie-16, all marked trending |
| Data.SeedIdsDistinct | src/lib/data.ts:28-205 | the sixteen built-in ids are pairwise distinct |
| Data.SeedGenreNotOffered | src/lib/data.ts:452-454 | one built-in movie has a genre that the genre list does not offer |
| Data.Restored | src/lib/data.ts:207-224 | the start-up list is the seed or the cached list. The cache wins exactly when it parses to a non-empty list, so a non-empty seed gives a non-empty list |
| Data.TrendingItem | src/lib/data.ts:425-433 | a new trending movie has id movie-millis, the given time, isTrending true, and otherwise the draft's fields |
| Data.AllGenres | src/lib/data.ts:452-454 | eight pairwise distinct genres |
| Data.WatchlistStore.constructor | src/lib/data.ts:207-224 | the flag starts true exactly in a browser. In a browser the trending list is the restored one, elsewhere the seed. The list is never empty |
| Data.WatchlistStore.EnableFallback | src/lib/data.ts:226-229 | the flag is set afterwards, whatever it was |
| Data.WatchlistStore.GetWatchlist | src/lib/data.ts:244-276 | no user gives []. An unset flag with an answered query gives the rows. Otherwise the flag is set and the result is what the current user's key reads as: [] when absent or unparsable |
| Data.WatchlistStore.AddToWatchlist | src/lib/data.ts:278-345 | no user fails, nothing changed. The database path returns the draft stamped with the generated id and leaves local state. The fallback path sets the flag and appends exactly one item stamped with type-millis to the user's list, returning it. Every other user's watchlist is unchanged |
| Data.WatchlistStore.RemoveFromWatchlist | src/lib/data.ts:347-384 | no user fails, nothing changed. The database path changes no local state. The fallback path sets the flag and writes the user's list filtered by id; every other user's watchlist is unchanged |
| Data.WatchlistStore.GetWatchlistByGenre | src/lib/data.ts:386-412 | no user gives []; database rows as answered; otherwise the flag is set and the result is the fallback watchlist filtered by genre |
| Data.WatchlistStore.TrendingMovies | src/lib/data.ts:414-416 | the trending list, which is never empty |
| Data.WatchlistStore.AddTrendingMovie | src/lib/data.ts:418-450 | without an admin current user it fails and list and cache are unchanged. Otherwise the new trending movie goes in front of the old list. In a browser the whole new list is written to the cache key, elsewhere the cache is unchanged |
| Scenarios.RegisterSignsIn | src/lib/auth.ts:189-207 | registering an unused e-mail in fallback mode makes that user current and authenticated, not admin |
| Scenarios.MismatchChangesNothing | src/lib/auth.ts:130-132 | a password mismatch fails and leaves the current user and the flag |
| Scenarios.AdminInEveryMode | src/lib/auth.ts:42-54 | the admin pair signs in an admin in every mode and database answer |
| Scenarios.LogoutThenAddRefused | src/lib/data.ts:279-280 | after logout an add fails as not authenticated and no watchlist changes |
| Scenarios.AddThenRemove | src/lib/data.ts:326-376 | add then remove by the returned id leaves no item with that id |
| Scenarios.SeriesKeepsSeasonAndEpisode | src/lib/data.ts:328-336 | a series added with season 2 and episode 5 is stored last with both |
| Scenarios.OtherUserDoesNotSee | src/lib/data.ts:232-276 | an item one user adds is not in another user's watchlist, which reads as before |

## Left out

- The SQL semantics of the database path and `src/lib/db.ts` are not modelled. The mock pool and the environment sniffing are out; each query is an oracle answer passed in. In a browser the flag is set at load, so these paths are never reached there.
- `generateId` (`Math.random`), `Date.now()` and `toISOString()` are not modelled; their results are parameters. `Register` uses one `freshId` for both the database attempt and the local attempt, where the source draws a new id for the second.
- JSON serialisation is not modelled: stored values are structured, and any text `JSON.parse` rejects is `Corrupt`. A text that parses to something of another shape (for instance `null`, or a non-array under `playHive_trending`) is treated as `Corrupt`.
- `toast` notifications, `console` logging and the 500 ms `setTimeout` before a local login or registration resolves are left out.
- Async interleavings are left out, for example the un-awaited calls from the movie card and the content form. Each operation is atomic here.
- A `localStorage.setItem` that throws (quota) is not modelled, so the fallback `catch` blocks of `addToWatchlist` and `removeFromWatchlist` that rethrow are never reached.
- `getTrendingMovies` hands out the module's own array, so a caller could mutate it in place. The model returns a value, so that aliasing is not captured.
- The rule that a series carries season and episode and a movie neither is enforced only by the content form. The store keeps whatever the draft says (see `Data.Draft.Stamp`), so the rule is neither required nor proved.
- The React pages and components, routing and the start-up wiring in `App.tsx` are left out. That wiring only calls the two `EnableFallback` operations.
