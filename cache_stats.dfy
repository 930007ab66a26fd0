/**
 * The counts several scripts print about the artist cache:
 * `sum(1 for data in cache.values() if data['genres'])` and its complement.
 */
module CacheStats {
  import opened Records

  /** The artists whose cached genre list is not empty. */
  function WithGenres(cache: Cache): (r: set<string>)
    ensures forall a :: a in r <==> a in cache && cache[a].genres != []
  {
    set a | a in cache && cache[a].genres != []
  }

  /** The artists whose cached genre list is empty. */
  function WithoutGenres(cache: Cache): (r: set<string>)
    ensures forall a :: a in r <==> a in cache && cache[a].genres == []
  {
    set a | a in cache && cache[a].genres == []
  }

  /** Every cached artist is counted exactly once, with genres or without. */
  lemma StatsPartition(cache: Cache)
    ensures WithGenres(cache) * WithoutGenres(cache) == {}
    ensures WithGenres(cache) + WithoutGenres(cache) == cache.Keys
    ensures |WithGenres(cache)| + |WithoutGenres(cache)| == |cache|
  {
    assert WithGenres(cache) + WithoutGenres(cache) == cache.Keys;
  }
}
