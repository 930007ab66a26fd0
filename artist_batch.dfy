/**
 * `get_artist_genres_batch` from Genre_Tools.py: cached genres for cached
 * ids, and one catalog request for all the others.
 */
module ArtistBatch {
  import opened Wrappers
  import opened Records

  /** The ids not in the cache, in order, repetitions kept. */
  function Uncached(ids: seq<string>, cache: Cache): (r: seq<string>)
    ensures forall x :: x in r <==> x in ids && x !in cache
    ensures r == [] <==> forall a :: a in ids ==> a in cache
    ensures |r| <= |ids|
  {
    if ids == [] then []
    else
      var front := ids[..|ids| - 1];
      assert ids == front + [ids[|ids| - 1]];
      Uncached(front, cache) + if ids[|ids| - 1] in cache then [] else [ids[|ids| - 1]]
  }

  /** `{artist['id']: artist.get('genres', []) for artist in artists if artist}`, later entries winning. */
  function FetchedGenres(artists: seq<Option<Artist>>): map<string, seq<string>>
  {
    if artists == [] then map[]
    else
      var last := artists[|artists| - 1];
      FetchedGenres(artists[..|artists| - 1]) + if last.Some? then map[last.value.id := last.value.genres] else map[]
  }

  /** Exactly the ids of the returned artists are keys. */
  lemma {:induction false} FetchedGenresKeys(artists: seq<Option<Artist>>)
    ensures forall id :: id in FetchedGenres(artists) <==>
      exists k :: 0 <= k < |artists| && artists[k].Some? && artists[k].value.id == id
  {
    if artists != [] {
      var front := artists[..|artists| - 1];
      FetchedGenresKeys(front);
      assert forall k :: 0 <= k < |front| ==> front[k] == artists[k];
    }
  }

  /** The genres an artist's last response carries are the ones recorded for it. */
  lemma {:induction false} FetchedGenresLast(artists: seq<Option<Artist>>, k: nat)
    requires k < |artists| && artists[k].Some?
    requires forall j :: k < j < |artists| && artists[j].Some? ==> artists[j].value.id != artists[k].value.id
    ensures artists[k].value.id in FetchedGenres(artists)
    ensures FetchedGenres(artists)[artists[k].value.id] == artists[k].value.genres
  {
    if k < |artists| - 1 {
      var front := artists[..|artists| - 1];
      assert front[k] == artists[k];
      FetchedGenresLast(front, k);
    }
  }

  /** The cached genres of the cached ids. */
  function CachedGenres(ids: seq<string>, cache: Cache): (r: map<string, seq<string>>)
    ensures forall a :: a in r <==> a in ids && a in cache
    ensures forall a :: a in r ==> r[a] == cache[a].genres
  {
    map a | a in ids && a in cache :: cache[a].genres
  }

  lemma CachedGenresStep(ids: seq<string>, i: nat, cache: Cache)
    requires i < |ids|
    ensures CachedGenres(ids[..i + 1], cache) ==
      if ids[i] in cache then CachedGenres(ids[..i], cache)[ids[i] := cache[ids[i]].genres] else CachedGenres(ids[..i], cache)
  {
    var before, after := CachedGenres(ids[..i], cache), CachedGenres(ids[..i + 1], cache);
    assert ids[..i + 1] == ids[..i] + [ids[i]];
    forall a ensures a in after <==> a in ids[..i] + [ids[i]] && a in cache {
    }
  }

  /**
   * `get_artist_genres_batch(ids, cache)`: the cached genres of the cached
   * ids, then, when some id is not cached, the genres of every artist the
   * catalog returns for the uncached ids.
   */
  function BatchGenres(ids: seq<string>, cache: Cache, fetch: seq<string> -> seq<Option<Artist>>): (r: map<string, seq<string>>)
    ensures forall a :: a in ids && a in cache ==> a in r
    ensures forall a :: a in r ==> (a in ids && a in cache) || a in FetchedGenres(fetch(Uncached(ids, cache)))
  {
    var cached := CachedGenres(ids, cache);
    var uncached := Uncached(ids, cache);
    if uncached == [] then cached else cached + FetchedGenres(fetch(uncached))
  }

  /** When every id is cached the catalog is not consulted: the answer is the cached genres. */
  lemma BatchGenresAllCached(ids: seq<string>, cache: Cache, fetch: seq<string> -> seq<Option<Artist>>)
    requires forall a :: a in ids ==> a in cache
    ensures BatchGenres(ids, cache, fetch) == map a | a in ids :: cache[a].genres
  {
  }

  /** A cached id keeps its cached genres unless the catalog also answered for it. */
  lemma BatchGenresCachedValue(ids: seq<string>, cache: Cache, fetch: seq<string> -> seq<Option<Artist>>, a: string)
    requires a in ids && a in cache
    requires Uncached(ids, cache) != [] ==> a !in FetchedGenres(fetch(Uncached(ids, cache)))
    ensures BatchGenres(ids, cache, fetch)[a] == cache[a].genres
  {
  }

  /** The first loop of `get_artist_genres_batch`: cached genres, and the uncached ids in order. */
  method SplitCached(ids: seq<string>, cache: Cache) returns (cachedArtists: map<string, seq<string>>, uncachedIds: seq<string>)
    ensures cachedArtists == CachedGenres(ids, cache)
    ensures uncachedIds == Uncached(ids, cache)
  {
    cachedArtists := map[];
    uncachedIds := [];
    var i := 0;
    while i < |ids|
      invariant 0 <= i <= |ids|
      invariant cachedArtists == CachedGenres(ids[..i], cache)
      invariant uncachedIds == Uncached(ids[..i], cache)
    {
      UncachedStep(ids, i, cache);
      CachedGenresStep(ids, i, cache);
      if ids[i] in cache {
        cachedArtists := cachedArtists[ids[i] := cache[ids[i]].genres];
      } else {
        uncachedIds := uncachedIds + [ids[i]];
      }
      i := i + 1;
    }
    assert ids[..|ids|] == ids;
  }

  lemma UncachedStep(ids: seq<string>, i: nat, cache: Cache)
    requires i < |ids|
    ensures Uncached(ids[..i + 1], cache) == Uncached(ids[..i], cache) + if ids[i] in cache then [] else [ids[i]]
  {
    assert ids[..i + 1][..i] == ids[..i];
  }

  lemma FetchedStep(artists: seq<Option<Artist>>, j: nat)
    requires j < |artists|
    ensures FetchedGenres(artists[..j + 1]) ==
      FetchedGenres(artists[..j]) + if artists[j].Some? then map[artists[j].value.id := artists[j].value.genres] else map[]
  {
    assert artists[..j + 1][..j] == artists[..j];
  }

  lemma UpdateAfterUnion<K, V>(base: map<K, V>, m: map<K, V>, k: K, v: V)
    ensures base + (m + map[k := v]) == (base + m)[k := v]
  {
  }

  /** The second loop: each returned artist's genres overwrite what the map held for its id. */
  method AddFetched(base: map<string, seq<string>>, artistsData: seq<Option<Artist>>) returns (m: map<string, seq<string>>)
    ensures m == base + FetchedGenres(artistsData)
  {
    m := base;
    var j := 0;
    while j < |artistsData|
      invariant 0 <= j <= |artistsData|
      invariant m == base + FetchedGenres(artistsData[..j])
    {
      FetchedStep(artistsData, j);
      if artistsData[j].Some? {
        UpdateAfterUnion(base, FetchedGenres(artistsData[..j]), artistsData[j].value.id, artistsData[j].value.genres);
        m := m[artistsData[j].value.id := artistsData[j].value.genres];
      } else {
        assert FetchedGenres(artistsData[..j]) + map[] == FetchedGenres(artistsData[..j]);
      }
      j := j + 1;
    }
    assert artistsData[..|artistsData|] == artistsData;
  }

  /** `get_artist_genres_batch`: the two loops, with the catalog consulted only when some id is not cached. */
  method GetArtistGenresBatch(ids: seq<string>, cache: Cache, fetch: seq<string> -> seq<Option<Artist>>)
    returns (cachedArtists: map<string, seq<string>>)
    ensures cachedArtists == BatchGenres(ids, cache, fetch)
  {
    var uncachedIds;
    cachedArtists, uncachedIds := SplitCached(ids, cache);
    if uncachedIds != [] {
      var artistsData := fetch(uncachedIds);
      cachedArtists := AddFetched(cachedArtists, artistsData);
    }
  }
}
