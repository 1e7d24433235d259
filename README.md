# Expiring response cache of the game-catalog proxy

The server proxies three read-only routes of a game-catalog API
(`/api/trending`, `/api/search/:query`, `/api/game/:id`). The upstream answers
are kept in a process-wide in-memory cache. The cache is a map from string
keys to `{data, timestamp}` entries with a fixed time-to-live of 600000 ms
(ten minutes). Expiry is lazy: a lookup that finds a stale entry deletes it
and reports a miss. Each route builds its key from the raw route parameter,
serves a truthy cached value without calling upstream, and otherwise calls
upstream. A successful answer is stored and then sent. A failure becomes a
500 response and is not stored.

This Dafny project models that core:

- `values.dfy` (module `Values`): `Option` and the parsed JSON value `Json`,
  with JavaScript truthiness (`Truthy`).
- `cache_keys.dfy` (module `CacheKeys`): the request identities, their cache
  keys `"trending"`, `"search_" + query` and `"game_" + id`, and `ParseKey`,
  an inverse used to prove that keys never collide.
- `expiring_cache.dfy` (module `ExpiringCache`): the TTL constant, the expiry
  test, pure functions for one lookup (`Lookup`, `AfterLookup`) and one store
  (`Store`), the eager-expiry view `Visible` that the lazy design must agree
  with, and the class `Cache` whose field `entries: map<string, Entry>` is
  updated in place by `GetFromCache` and `SetInCache`.
- `cache_traces.dfy` (module `CacheTraces`): replaying sequences of lookups and
  stores, and what they imply for one key over time (expiry is sticky, a
  never-stored key always misses, a fresh entry is served until its TTL has
  passed whatever happens to other keys).
- `handlers.dfy` (module `Handlers`): the shared hit / fetch / store / fail
  decision of the three routes, as a pure function `Serve` and as the method
  `Handle` on a `Cache`, with one method per route.

The clock (`Date.now()`) is a parameter: `now` for the lookup and `storedAt`
for the store, which in the server happens after the upstream call has
returned. The upstream call is a parameter too, a `FetchOutcome`: either a
response with its status and its parsed body (`None` when parsing threw), or a
transport error.

Two details of the code shape the model:

- A cached value counts as a hit only when it is truthy (`server.js:75`). A
  cached `null`, `false`, `0` or `""` is fetched again, and if that fetch fails
  the falsy entry stays in the cache.
- "A failure leaves the cache untouched" holds after the lookup: the lookup
  itself may already have deleted a stale entry for the key (`server.js:50`).

## Model

| member | source | states |
|---|---|---|
| `Values.Truthy` | server.js:75 | the `if (cachedData)` test: `null`, `false`, `0` and `""` are falsy, every other string and number, every array and every object is truthy |
| `CacheKeys.CacheKey` | server.js:71-131 | the key of each route, built without normalisation: `"trending"`, `"search_"` followed by the raw query, `"game_"` followed by the raw id |
| `ExpiringCache.IsExpired` | server.js:29-47 | an entry is stale when strictly more than `CacheDurationMs` = 10 * 60 * 1000 = 600000 ms have passed since its timestamp |
| `ExpiringCache.Lookup` | server.js:40-56 | the value `getFromCache` returns: none for an absent key or a stale entry, the stored data otherwise |
| `ExpiringCache.AfterLookup` | server.js:40-56 | the map after `getFromCache`: a stale entry for the key is deleted, otherwise the map is unchanged |
| `ExpiringCache.Store` | server.js:61-65 | the map after `setInCache`: the key maps to `{data, timestamp: now}`, replacing any earlier entry |
| `Handlers.IsOkStatus` | server.js:83 | `response.ok`: the status is in 200-299 |
| `Handlers.FetchSucceeded` | server.js:82-86 | the upstream call yields data to store: a 2xx status and a body that parsed; a non-2xx status, a parse failure or a transport error is a failure |
| `Handlers.FailureMessage` | server.js:92-94 | the fixed error text of each route: "Failed to fetch trending games", "Failed to search games" (server.js:124), "Failed to fetch game details" (server.js:154) |
| `Handlers.ErrorResponse` | server.js:92-94 | the failure reply: status 500 with the body `{ error: <message of the route> }`, the cause not disclosed |
| `Handlers.Serve` | server.js:70-95 | one route call on the cache: look up the key; a truthy value is sent with status 200 and nothing fetched; otherwise upstream is called, a success is stored stamped `storedAt` and sent with status 200, a failure gives the error reply and stores nothing |
| `CacheKeys.KeyRoundTrip` | server.js:71-131 | each route's key reads back as exactly the request it was built from |
| `CacheKeys.ParseKeyOnlyAcceptsKeys` | server.js:71-131 | a string reads back as a request only if it is that request's key |
| `CacheKeys.CacheKeyInjective` | server.js:71-131 | two requests share a cache key if and only if they are the same request, within a route and across routes |
| `CacheKeys.SearchKeysAreCaseSensitive` | server.js:101 | keys are not normalised: `search_zelda` and `search_Zelda` are distinct |
| `ExpiringCache.LookupOutcomes` | server.js:40-56 | absent key: miss, map unchanged; entry older than the TTL: miss, that key removed and every other entry kept; otherwise: hit with the stored data, map unchanged |
| `ExpiringCache.LookupAgreesWithVisible` | server.js:40-56 | a lookup returns exactly what the eager-expiry view holds for the key |
| `ExpiringCache.LazyDeletionIsUnobservable` | server.js:47-51 | deleting a stale entry during a lookup changes nothing a reader can see at that time or any later time |
| `ExpiringCache.StoreIsVisible` | server.js:61-65 | after a store at time `now`, readers at `now` see the new data under the key and the same data as before under every other key |
| `ExpiringCache.StoreOverwrites` | server.js:61-65 | a store leaves exactly `{data, timestamp: now}` under the key, present before or not, and changes no other key |
| `ExpiringCache.StoreThenLookup` | server.js:40-65 | data stored at `t` is returned by a lookup at `t'` if and only if `t' - t <= 600000`; otherwise the lookup misses |
| `ExpiringCache.SecondStoreWins` | server.js:61-65 | a second store for a key replaces the first, whatever the first's age |
| `ExpiringCache.ExpiryBoundary` | server.js:29-55 | stored data is served at 9 min 59 s and at exactly 10 min, and not at 10 min 1 s |
| `ExpiringCache.Cache.constructor` | server.js:26 | the cache starts empty |
| `ExpiringCache.Cache.GetFromCache` | server.js:40-56 | the three lookup outcomes, as the new value of the `entries` field and the returned data |
| `ExpiringCache.Cache.SetInCache` | server.js:61-67 | the `entries` field becomes the old map with `{data, timestamp: now}` under the key |
| `CacheTraces.AbsentStaysAbsent` | server.js:40-45 | an absent key stays absent and every lookup of it misses until something stores under it |
| `CacheTraces.NeverStoredIsMiss` | server.js:40-45 | starting from the empty cache, every lookup of a key never stored misses |
| `CacheTraces.ExpiryIsSticky` | server.js:47-51 | once a lookup has found an entry stale, that lookup and every later lookup of the key miss until it is stored again |
| `CacheTraces.StaleStaysStale` | server.js:47-52 | an entry stale at `t0` is never served at any later time, whether or not it has been deleted, until the key is stored again |
| `CacheTraces.FreshEntrySurvives` | server.js:40-56 | within its TTL and without a new store under its key, an entry is returned by every lookup of the key and is still present and unchanged at the end, whatever lookups and stores of other keys do |
| `CacheTraces.StoredDataIsServedWithinTtl` | server.js:40-67 | after a store at `t`, every later lookup of the key within the TTL returns the stored data while nothing else is stored under the key |
| `Handlers.FetchesExactlyWithoutTruthyHit` | server.js:74-77 | upstream is called if and only if the lookup gives no truthy value, so a cached falsy value is fetched again |
| `Handlers.TruthyHitIsServedFromCache` | server.js:74-77 | a fresh truthy entry is sent with status 200, without an upstream call, and the cache is unchanged |
| `Handlers.SuccessIsStoredAndSent` | server.js:80-91 | on a miss and a 2xx response with a parsed body, that body is sent with status 200 and stored under the key stamped `storedAt`, where a lookup at that time finds it |
| `Handlers.FailureIsNotCached` | server.js:80-95 | on a non-2xx status, a body that does not parse or a transport error, the route's 500 response is sent and the cache is as the lookup left it: no new entry under the key |
| `Handlers.OtherKeysUntouched` | server.js:70-95 | a request changes no entry except the one under its own key |
| `Handlers.DetailsNotFoundIsNotCached` | server.js:139-155 | a 404 for game `123` gives a 500 response and leaves no entry under `game_123` |
| `Handlers.Handle` | server.js:70-96 | running the route steps in order (lookup, upstream outcome, store) yields the response, the fetch decision and the cache that `Serve` describes: no fetch means status 200 and an unchanged cache; a failure means the error response and the cache as the lookup left it; a success means status 200 and the body stored under the key |
| `Handlers.GetTrending` | server.js:70-96 | the trending route is `Handle` with key `"trending"` and message "Failed to fetch trending games" |
| `Handlers.SearchGames` | server.js:99-126 | the search route is `Handle` with key `"search_" + query` and message "Failed to search games" |
| `Handlers.GetGameDetails` | server.js:129-156 | the details route is `Handle` with key `"game_" + id` and message "Failed to fetch game details" |

## Left out

- Express wiring, static file serving, `res.json` / `res.sendFile` and `app.listen` (server.js:33, server.js:158-166): HTTP framework plumbing. A route's reply is the `Response` value (status and JSON body).
- The network call and `response.json()` (server.js:82-86 and the same lines in the other routes): I/O through a foreign library. They are replaced by the `FetchOutcome` parameter.
- Building the upstream URL, including `encodeURIComponent` and the API key in the query string (server.js:81, server.js:111, server.js:141): it only shapes the outbound request, which is not modelled.
- Loading the environment, the API-key placeholder check and `process.exit` (server.js:2-19): startup configuration and process control.
- Logging (`console.log`, `console.error`): side effects only.
- Concurrency: requests interleave at the upstream `await`, so two misses for the same key can both fetch and the later store wins. Each handler call is modelled as atomic. Two concurrent misses for the same key, each fetching and storing, are therefore not covered; a sequential replay of two stores for one key is covered by `ExpiringCache.SecondStoreWins`.
- `Date.now()` is replaced by the `now` and `storedAt` parameters. The model does not assume that the clock is monotonic, except where a lemma says so (`ExpiringCache.LazyDeletionIsUnobservable` and `CacheTraces.StaleStaysStale`).
- JSON numbers are modelled as `real`. Floating-point rounding, `-0` and `NaN` are not modelled; JSON text cannot denote `NaN`.
