/** Cache keys of the three API routes: `"trending"`, `"search_" + query` and
    `"game_" + id`, built from the raw route parameter without any
    normalisation (no case folding, no escaping). */
module CacheKeys {
  import opened Values

  /** The logical identity of a request to one of the three cached routes. */
  datatype Request =
    | Trending
    | Search(query: string)
    | GameDetails(id: string)

  const TrendingKey: string := "trending"
  const SearchPrefix: string := "search_"
  const GamePrefix: string := "game_"

  /** The key under which a request's upstream answer is cached. */
  function CacheKey(r: Request): string
  {
    match r
    case Trending => TrendingKey
    case Search(query) => SearchPrefix + query
    case GameDetails(id) => GamePrefix + id
  }

  /** Reads a key back as the request it belongs to; `None` for a string that
      is no route's key. This inverse is what the injectivity lemmas use. */
  function ParseKey(key: string): (r: Option<Request>)
  {
    if key == TrendingKey then Some(Trending)
    else if |key| >= |SearchPrefix| && key[..|SearchPrefix|] == SearchPrefix then
      Some(Search(key[|SearchPrefix|..]))
    else if |key| >= |GamePrefix| && key[..|GamePrefix|] == GamePrefix then
      Some(GameDetails(key[|GamePrefix|..]))
    else None
  }

  /** Every request's key reads back as that request. */
  lemma KeyRoundTrip(r: Request)
    ensures ParseKey(CacheKey(r)) == Some(r)
  {
    match r
    case Trending =>
    case Search(query) =>
      var key := SearchPrefix + query;
      assert key[0] == 's' != TrendingKey[0];
      assert key[..|SearchPrefix|] == SearchPrefix;
      assert key[|SearchPrefix|..] == query;
    case GameDetails(id) =>
      var key := GamePrefix + id;
      assert key[0] == 'g';
      assert key != TrendingKey by { assert TrendingKey[0] == 't'; }
      if |key| >= |SearchPrefix| {
        assert key[..|SearchPrefix|][0] == 'g';
      }
      assert key[..|GamePrefix|] == GamePrefix;
      assert key[|GamePrefix|..] == id;
  }

  /** The only strings that read back as a request are that request's key. */
  lemma ParseKeyOnlyAcceptsKeys(key: string, r: Request)
    requires ParseKey(key) == Some(r)
    ensures CacheKey(r) == key
  {
  }

  /** Distinct requests never share a cache entry: within one route different
      queries or ids give different keys, and keys of different routes never
      collide. */
  lemma CacheKeyInjective(r1: Request, r2: Request)
    ensures CacheKey(r1) == CacheKey(r2) <==> r1 == r2
  {
    KeyRoundTrip(r1);
    KeyRoundTrip(r2);
  }

  /** Searches that differ only in letter case are cached independently. */
  lemma SearchKeysAreCaseSensitive()
    ensures CacheKey(Search("zelda")) == "search_zelda"
    ensures CacheKey(Search("Zelda")) == "search_Zelda"
    ensures CacheKey(Search("zelda")) != CacheKey(Search("Zelda"))
  {
  }
}
