/** The three cached API routes (`/api/trending`, `/api/search/:query`,
    `/api/game/:id`). Each derives its cache key, serves a truthy cached value
    without calling upstream, and otherwise calls upstream: a successful answer
    is stored and then sent, a failed one becomes a 500 response and is never
    stored. The upstream call is not modelled; its outcome is a parameter. */
module Handlers {
  import opened Values
  import opened CacheKeys
  import opened ExpiringCache

  /** How the upstream call went: the response's status and its parsed body
      (`None` when parsing the body threw), or a thrown transport error. */
  datatype FetchOutcome =
    | Responded(status: int, body: Option<Json>)
    | TransportError

  /** What the route sends back to its client. */
  datatype Response = Response(status: int, body: Json)

  /** `response.ok`: a status in the 2xx range. */
  predicate IsOkStatus(status: int)
  {
    200 <= status <= 299
  }

  /** The upstream call produced data worth caching. */
  predicate FetchSucceeded(outcome: FetchOutcome)
  {
    outcome.Responded? && IsOkStatus(outcome.status) && outcome.body.Some?
  }

  /** The fixed message each route reports on failure. */
  function FailureMessage(r: Request): string
  {
    match r
    case Trending => "Failed to fetch trending games"
    case Search(_) => "Failed to search games"
    case GameDetails(_) => "Failed to fetch game details"
  }

  /** The 500 response `{ error: <message> }`; the cause is not disclosed. */
  function ErrorResponse(r: Request): Response
  {
    Response(500, Obj([("error", Str(FailureMessage(r)))]))
  }

  /** The response, whether upstream was called, and the cache afterwards. */
  datatype Served = Served(response: Response, fetched: bool, entries: Entries)

  /** One request handled atomically against the cache `m`: the lookup runs at
      `now`, a store stamps the entry with `storedAt` (the clock when the
      upstream answer has arrived). */
  function Serve(m: Entries, r: Request, now: int, storedAt: int, outcome: FetchOutcome): Served
  {
    var key := CacheKey(r);
    var cached := Lookup(m, key, now);
    var m1 := AfterLookup(m, key, now);
    if cached.Some? && Truthy(cached.value) then
      Served(Response(200, cached.value), false, m1)
    else if FetchSucceeded(outcome) then
      Served(Response(200, outcome.body.value), true, Store(m1, key, outcome.body.value, storedAt))
    else
      Served(ErrorResponse(r), true, m1)
  }

  /** Upstream is called exactly when the cache has no truthy value for the
      request's key; a falsy cached value (`null`, `false`, `0`, `""`) counts
      as a miss and is fetched again. */
  lemma FetchesExactlyWithoutTruthyHit(m: Entries, r: Request, now: int, storedAt: int, outcome: FetchOutcome)
    ensures Serve(m, r, now, storedAt, outcome).fetched <==>
      !(Lookup(m, CacheKey(r), now).Some? && Truthy(Lookup(m, CacheKey(r), now).value))
  {
  }

  /** A truthy hit is sent as is: no upstream call, status 200, the cache
      unchanged. */
  lemma TruthyHitIsServedFromCache(m: Entries, r: Request, now: int, storedAt: int, outcome: FetchOutcome)
    requires CacheKey(r) in m && !IsExpired(now, m[CacheKey(r)].timestamp)
    requires Truthy(m[CacheKey(r)].data)
    ensures Serve(m, r, now, storedAt, outcome) == Served(Response(200, m[CacheKey(r)].data), false, m)
  {
  }

  /** After a miss and a successful upstream call, the data is sent with status
      200 and the cache holds it under the request's key, stamped `storedAt`;
      a lookup at that time returns it. */
  lemma SuccessIsStoredAndSent(m: Entries, r: Request, now: int, storedAt: int, outcome: FetchOutcome)
    requires !(Lookup(m, CacheKey(r), now).Some? && Truthy(Lookup(m, CacheKey(r), now).value))
    requires FetchSucceeded(outcome)
    ensures var s := Serve(m, r, now, storedAt, outcome);
      && s.fetched
      && s.response == Response(200, outcome.body.value)
      && CacheKey(r) in s.entries && s.entries[CacheKey(r)] == Entry(outcome.body.value, storedAt)
      && Lookup(s.entries, CacheKey(r), storedAt) == Some(outcome.body.value)
  {
  }

  /** Failures are never cached: a non-2xx status, an unparsable body or a
      transport error gives the route's 500 response, and the cache is left as
      the lookup left it, so the key holds no entry it did not hold before. */
  lemma FailureIsNotCached(m: Entries, r: Request, now: int, storedAt: int, outcome: FetchOutcome)
    requires !(Lookup(m, CacheKey(r), now).Some? && Truthy(Lookup(m, CacheKey(r), now).value))
    requires !FetchSucceeded(outcome)
    ensures var s := Serve(m, r, now, storedAt, outcome);
      && s.fetched
      && s.response == ErrorResponse(r) && s.response.status == 500
      && s.entries == AfterLookup(m, CacheKey(r), now)
      && (CacheKey(r) in s.entries ==> CacheKey(r) in m && s.entries[CacheKey(r)] == m[CacheKey(r)])
  {
  }

  /** A request touches no cache entry but its own key's. */
  lemma OtherKeysUntouched(m: Entries, r: Request, now: int, storedAt: int, outcome: FetchOutcome, k: string)
    requires k != CacheKey(r)
    ensures var s := Serve(m, r, now, storedAt, outcome);
      (k in s.entries <==> k in m) && (k in m ==> s.entries[k] == m[k])
  {
  }

  /** A 404 from upstream for game "123" is reported as a 500 failure and
      leaves no entry under `game_123`. */
  lemma DetailsNotFoundIsNotCached(m: Entries, now: int, storedAt: int, body: Option<Json>)
    requires "game_123" !in m
    ensures var s := Serve(m, GameDetails("123"), now, storedAt, Responded(404, body));
      s.response.status == 500 && "game_123" !in s.entries
  {
    assert CacheKey(GameDetails("123")) == "game_123";
  }

  /** The body of one route handler: the steps run in the route handler's order,
      lookup first, then (on a miss) the upstream outcome, then the store. */
  method Handle(cache: Cache, r: Request, now: int, storedAt: int, outcome: FetchOutcome)
    returns (response: Response, fetched: bool)
    modifies cache
    ensures Served(response, fetched, cache.entries) == Serve(old(cache.entries), r, now, storedAt, outcome)
    ensures !fetched ==> response.status == 200 && cache.entries == old(cache.entries)
    ensures fetched && !FetchSucceeded(outcome) ==>
      response == ErrorResponse(r) && cache.entries == AfterLookup(old(cache.entries), CacheKey(r), now)
    ensures fetched && FetchSucceeded(outcome) ==>
      response == Response(200, outcome.body.value)
      && cache.entries == Store(AfterLookup(old(cache.entries), CacheKey(r), now), CacheKey(r), outcome.body.value, storedAt)
  {
    var cacheKey := CacheKey(r);
    var cachedData := cache.GetFromCache(cacheKey, now);
    if cachedData.Some? && Truthy(cachedData.value) {
      return Response(200, cachedData.value), false;
    }
    fetched := true;
    match outcome
    case TransportError =>
      response := ErrorResponse(r);
    case Responded(status, body) =>
      if !IsOkStatus(status) {
        response := ErrorResponse(r);
      } else if body.None? {
        response := ErrorResponse(r);
      } else {
        var data := body.value;
        cache.SetInCache(cacheKey, data, storedAt);
        response := Response(200, data);
      }
  }

  /** `GET /api/trending`. */
  method GetTrending(cache: Cache, now: int, storedAt: int, outcome: FetchOutcome)
    returns (response: Response, fetched: bool)
    modifies cache
    ensures Served(response, fetched, cache.entries) == Serve(old(cache.entries), Trending, now, storedAt, outcome)
  {
    response, fetched := Handle(cache, Trending, now, storedAt, outcome);
  }

  /** `GET /api/search/:query`. */
  method SearchGames(cache: Cache, query: string, now: int, storedAt: int, outcome: FetchOutcome)
    returns (response: Response, fetched: bool)
    modifies cache
    ensures Served(response, fetched, cache.entries) == Serve(old(cache.entries), Search(query), now, storedAt, outcome)
  {
    response, fetched := Handle(cache, Search(query), now, storedAt, outcome);
  }

  /** `GET /api/game/:id`. */
  method GetGameDetails(cache: Cache, id: string, now: int, storedAt: int, outcome: FetchOutcome)
    returns (response: Response, fetched: bool)
    modifies cache
    ensures Served(response, fetched, cache.entries) == Serve(old(cache.entries), GameDetails(id), now, storedAt, outcome)
  {
    response, fetched := Handle(cache, GameDetails(id), now, storedAt, outcome);
  }
}
