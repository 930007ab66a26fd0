/**
 * Artist_Fixes.py: the cached artists with an empty genre list get the
 * genres of the fixed mapping table of Artist_Genres.py, when it has some
 * for them; the file is rewritten only when something was fixed. The
 * statistics split the cache into artists with and without genres. A
 * missing cache file is `None`.
 */
module ArtistFixes {
  import opened Wrappers
  import opened Lists
  import opened Records
  import opened Sorting
  import opened CacheStats
  import opened ArtistGenreMappings

  /** An artist the fix applies to: cached with no genres, and mapped to some. */
  predicate Fixable(cache: Cache, table: MappingTable, a: string)
  {
    a in cache && cache[a].genres == [] && CustomArtistGenres(table, a) != []
  }

  function FixableIn(cache: Cache, table: MappingTable): string -> bool
  {
    a => Fixable(cache, table, a)
  }

  /** The artists the fix applies to. */
  function FixedIds(cache: Cache, table: MappingTable): (r: set<string>)
    ensures forall a :: a in r <==> Fixable(cache, table, a)
    ensures r <= cache.Keys
  {
    set a | a in cache.Keys && Fixable(cache, table, a)
  }

  /** One artist's record after the fix. */
  function FixedRecord(cache: Cache, table: MappingTable, a: string): Record
    requires a in cache
  {
    if Fixable(cache, table, a) then cache[a].(genres := CustomArtistGenres(table, a)) else cache[a]
  }

  /** The cache once the fix has run over every artist. */
  function FixAll(cache: Cache, table: MappingTable): (r: Cache)
    ensures r.Keys == cache.Keys
    ensures forall a :: a in cache ==> r[a] == FixedRecord(cache, table, a)
  {
    map a | a in cache :: FixedRecord(cache, table, a)
  }

  /**
   * Only the artists with no genres and a mapping change, and only their
   * genres, which become the mapping; every other record is kept.
   */
  lemma FixMeaning(cache: Cache, table: MappingTable, a: string)
    requires a in cache
    ensures var r := FixAll(cache, table);
      r[a].name == cache[a].name && r[a].country == cache[a].country &&
      (a in FixedIds(cache, table) ==> r[a].genres == table[a] && r[a].genres != []) &&
      (a !in FixedIds(cache, table) ==> r[a] == cache[a])
  {
  }

  /** The fix changes the cache exactly when it applies to someone. */
  lemma FixChanges(cache: Cache, table: MappingTable)
    ensures FixAll(cache, table) == cache <==> FixedIds(cache, table) == {}
  {
    if FixedIds(cache, table) != {} {
      var a :| a in FixedIds(cache, table);
      assert FixAll(cache, table)[a].genres != cache[a].genres;
    } else {
      assert forall a :: a in cache ==> FixAll(cache, table)[a] == cache[a];
    }
  }

  /** Running the fix again changes nothing. */
  lemma FixTwice(cache: Cache, table: MappingTable)
    ensures FixAll(FixAll(cache, table), table) == FixAll(cache, table)
  {
    var once := FixAll(cache, table);
    assert FixedIds(once, table) == {} by {
      forall a | a in once ensures !Fixable(once, table, a) {
        FixMeaning(cache, table, a);
      }
    }
    FixChanges(once, table);
  }

  /** The artists left without genres are those that were, less the fixed ones. */
  lemma FixLeavesEmpty(cache: Cache, table: MappingTable)
    ensures WithoutGenres(FixAll(cache, table)) == WithoutGenres(cache) - FixedIds(cache, table)
    ensures |WithoutGenres(FixAll(cache, table))| == |WithoutGenres(cache)| - |FixedIds(cache, table)|
  {
    var r := FixAll(cache, table);
    forall a ensures a in WithoutGenres(r) <==> a in WithoutGenres(cache) - FixedIds(cache, table) {
      if a in cache {
        FixMeaning(cache, table, a);
      }
    }
    assert WithoutGenres(r) == WithoutGenres(cache) - FixedIds(cache, table);
    assert FixedIds(cache, table) <= WithoutGenres(cache);
  }

  /** What `fix_artist_cache` leaves: the cache, the count, the fixed ids in order, and the file as written. */
  datatype FixRun = FixRun(cache: Cache, fixedCount: nat, updatedArtists: seq<string>, written: Option<Cache>)

  /** The cache once the artists of `done` are visited. */
  ghost predicate FixedSoFar(c: Cache, cache: Cache, table: MappingTable, done: set<string>)
  {
    c.Keys == cache.Keys &&
    forall a :: a in c ==> c[a] == if a in done then FixedRecord(cache, table, a) else cache[a]
  }

  /** Visiting one more artist. */
  lemma FixStep(c: Cache, cache: Cache, table: MappingTable, done: set<string>, a: string)
    requires FixedSoFar(c, cache, table, done) && a in cache && a !in done
    ensures c[a] == cache[a]
    ensures Fixable(cache, table, a) ==>
      FixedSoFar(c[a := c[a].(genres := CustomArtistGenres(table, a))], cache, table, done + {a})
    ensures !Fixable(cache, table, a) ==> FixedSoFar(c, cache, table, done + {a})
  {
  }

  lemma FixAllIs(c: Cache, cache: Cache, table: MappingTable)
    requires FixedSoFar(c, cache, table, cache.Keys)
    ensures c == FixAll(cache, table)
  {
  }

  /** One pass of the fixing loop's body. */
  method FixOne(c: Cache, ghost cache: Cache, table: MappingTable, ghost done: set<string>, artistId: string)
    returns (c': Cache, fixed: bool)
    requires FixedSoFar(c, cache, table, done) && artistId in cache && artistId !in done
    ensures FixedSoFar(c', cache, table, done + {artistId})
    ensures fixed == Fixable(cache, table, artistId)
  {
    FixStep(c, cache, table, done, artistId);
    c', fixed := c, false;
    if c[artistId].genres == [] {
      var customGenres := CustomArtistGenres(table, artistId);
      if customGenres != [] {
        c' := c[artistId := c[artistId].(genres := customGenres)];
        fixed := true;
      }
    }
  }

  /** The fixing loop over `artist_cache.items()`, visiting the ids in the order `ids`. */
  method FixEach(artistCache: Cache, table: MappingTable, ids: seq<string>)
    returns (c: Cache, fixedCount: nat, updatedArtists: seq<string>)
    requires Elems(ids) == artistCache.Keys && Distinct(ids)
    ensures c == FixAll(artistCache, table)
    ensures updatedArtists == Filter(ids, FixableIn(artistCache, table))
    ensures fixedCount == |updatedArtists|
  {
    c := artistCache;
    var count := 0;
    updatedArtists := [];
    for i: nat := 0 to |ids|
      invariant count == |updatedArtists|
      invariant updatedArtists == Filter(ids[..i], FixableIn(artistCache, table))
      invariant FixedSoFar(c, artistCache, table, Elems(ids[..i]))
    {
      var artistId := ids[i];
      assert artistId !in Elems(ids[..i]);
      ElemsStep(ids, i);
      FilterStep(ids, i, FixableIn(artistCache, table));
      var fixed;
      c, fixed := FixOne(c, artistCache, table, Elems(ids[..i]), artistId);
      if fixed {
        count := count + 1;
        updatedArtists := updatedArtists + [artistId];
      }
    }
    assert ids[..|ids|] == ids;
    FixAllIs(c, artistCache, table);
    fixedCount := count;
  }

  /** The fixed ids are listed once each, and they are exactly the artists the fix applies to. */
  lemma UpdatedArtistsMeaning(cache: Cache, table: MappingTable, ids: seq<string>)
    requires Elems(ids) == cache.Keys && Distinct(ids)
    ensures var u := Filter(ids, FixableIn(cache, table));
      Distinct(u) && Elems(u) == FixedIds(cache, table) && |u| == |FixedIds(cache, table)|
  {
    var u := Filter(ids, FixableIn(cache, table));
    FilterDistinct(ids, FixableIn(cache, table));
    forall a ensures a in Elems(u) <==> a in FixedIds(cache, table) {
      FilterMember(ids, FixableIn(cache, table), a);
    }
    DistinctCard(u);
  }

  /**
   * `fix_artist_cache`: `None` when the cache file is missing. The count is
   * the number of fixed artists, and the file is rewritten with the fixed
   * cache exactly when the count is not zero.
   */
  method FixArtistCache(artistCache: Option<Cache>, table: MappingTable, listOf: set<string> -> seq<string>)
    returns (r: Option<FixRun>)
    requires Enumerates(listOf) && ListsOnce(listOf)
    ensures r.None? <==> artistCache.None?
    ensures r.Some? ==> var cache := artistCache.value;
      r.value.cache == FixAll(cache, table) &&
      r.value.fixedCount == |FixedIds(cache, table)| &&
      Distinct(r.value.updatedArtists) && Elems(r.value.updatedArtists) == FixedIds(cache, table) &&
      r.value.written == if r.value.fixedCount > 0 then Some(FixAll(cache, table)) else None
  {
    if artistCache.None? {
      return None;
    }
    var cache := artistCache.value;
    var ids := listOf(cache.Keys);
    assert Elems(ids) == cache.Keys && Distinct(ids);
    var c, fixedCount, updatedArtists := FixEach(cache, table, ids);
    UpdatedArtistsMeaning(cache, table, ids);
    var written := None;
    if fixedCount > 0 {
      written := Some(c);
    }
    r := Some(FixRun(c, fixedCount, updatedArtists, written));
  }

  /** A rewrite happens exactly when the fix changed the cache. */
  lemma WrittenWhenChanged(cache: Cache, table: MappingTable)
    ensures |FixedIds(cache, table)| > 0 <==> FixAll(cache, table) != cache
  {
    FixChanges(cache, table);
  }

  /** The counts `show_cache_stats` prints, before the percentage. */
  datatype Stats = Stats(totalArtists: nat, artistsWithGenres: nat, emptyGenreCount: nat)

  const ZeroDivision := "ZeroDivisionError"

  /**
   * `show_cache_stats`: `None` when the cache file is missing; the counts,
   * or the error the percentage raises on an empty cache.
   */
  function ShowCacheStats(artistCache: Option<Cache>): (r: Option<Result<Stats>>)
    ensures r.None? <==> artistCache.None?
    ensures r.Some? ==> (r.value.Err? <==> |artistCache.value| == 0)
    ensures r.Some? && r.value.Ok? ==> var s := r.value.value;
      s.totalArtists == |artistCache.value| &&
      s.artistsWithGenres == |WithGenres(artistCache.value)| &&
      s.emptyGenreCount == |WithoutGenres(artistCache.value)| &&
      s.artistsWithGenres + s.emptyGenreCount == s.totalArtists
  {
    match artistCache
      case None => None
      case Some(cache) =>
        StatsPartition(cache);
        var totalArtists := |cache|;
        var emptyGenreCount := |WithoutGenres(cache)|;
        if totalArtists == 0 then Some(Err(ZeroDivision))
        else Some(Ok(Stats(totalArtists, totalArtists - emptyGenreCount, emptyGenreCount)))
  }

  /** The fix moves exactly the fixed artists from the without-genres count to the with-genres count. */
  lemma StatsAfterFix(cache: Cache, table: MappingTable)
    requires |cache| > 0
    ensures var before := ShowCacheStats(Some(cache)).value.value;
      var after := ShowCacheStats(Some(FixAll(cache, table))).value.value;
      after.totalArtists == before.totalArtists &&
      after.emptyGenreCount == before.emptyGenreCount - |FixedIds(cache, table)| &&
      after.artistsWithGenres == before.artistsWithGenres + |FixedIds(cache, table)|
  {
    FixLeavesEmpty(cache, table);
    StatsPartition(cache);
    StatsPartition(FixAll(cache, table));
    assert FixedIds(cache, table) <= WithoutGenres(cache);
  }
}
