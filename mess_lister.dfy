/**
 * Mess_Lister.py: the cached artists with more genres than a threshold,
 * strictly, listed in the cache's order, and the export of them with their
 * genres and genre counts. The order dictionary iteration gives is `listOf`.
 */
module MessLister {
  import opened Lists
  import opened Records
  import opened Sorting

  /** `len(data.get('genres', [])) > min_genres`. */
  function Messy(cache: Cache, minGenres: int): string -> bool
  {
    id => id in cache && |cache[id].genres| > minGenres
  }

  /** The selecting loop of `list_artists_with_multiple_genres`, over the cache ids in the order `ids`. */
  method SelectMessy(artistCache: Cache, minGenres: int, ids: seq<string>) returns (artistsWithMultipleGenres: seq<string>)
    requires forall k :: 0 <= k < |ids| ==> ids[k] in artistCache
    ensures artistsWithMultipleGenres == Filter(ids, Messy(artistCache, minGenres))
  {
    artistsWithMultipleGenres := [];
    for i: nat := 0 to |ids|
      invariant artistsWithMultipleGenres == Filter(ids[..i], Messy(artistCache, minGenres))
    {
      FilterStep(ids, i, Messy(artistCache, minGenres));
      var genres := artistCache[ids[i]].genres;
      if |genres| > minGenres {
        artistsWithMultipleGenres := artistsWithMultipleGenres + [ids[i]];
      }
    }
    assert ids[..|ids|] == ids;
  }

  /** `list_artists_with_multiple_genres(min_genres)`. */
  method ListArtistsWithMultipleGenres(artistCache: Cache, minGenres: int, listOf: set<string> -> seq<string>)
    returns (r: seq<string>)
    requires Enumerates(listOf)
    ensures r == Filter(listOf(artistCache.Keys), Messy(artistCache, minGenres))
  {
    var ids := listOf(artistCache.Keys);
    assert Elems(ids) == artistCache.Keys;
    r := SelectMessy(artistCache, minGenres, ids);
  }

  /** Filtering keeps the order: the result only leaves elements out. */
  lemma {:induction false} FilterKeepsOrder<T>(s: seq<T>, p: T -> bool)
    ensures Subsequence(Filter(s, p), s)
  {
    if s != [] {
      var n := |s| - 1;
      FilterKeepsOrder(s[..n], p);
      FilterStep(s, n, p);
      SubsequenceSnoc(Filter(s[..n], p), s[..n], s[n]);
      assert s[..n + 1] == s && s[..n] + [s[n]] == s;
      if !p(s[n]) {
        assert Filter(s[..n], p) + [] == Filter(s[..n], p);
      }
    }
  }

  /**
   * The listed artists are the cached ones with more than `min_genres`
   * genres, strictly, each once, in the order the cache lists them.
   */
  lemma ListedMeaning(cache: Cache, minGenres: int, listOf: set<string> -> seq<string>)
    requires Enumerates(listOf) && ListsOnce(listOf)
    ensures var ids := listOf(cache.Keys);
      var r := Filter(ids, Messy(cache, minGenres));
      Distinct(r) && Subsequence(r, ids) &&
      forall id :: id in r <==> id in cache && |cache[id].genres| > minGenres
  {
    var ids := listOf(cache.Keys);
    var r := Filter(ids, Messy(cache, minGenres));
    FilterDistinct(ids, Messy(cache, minGenres));
    FilterKeepsOrder(ids, Messy(cache, minGenres));
    forall id ensures id in r <==> id in cache && |cache[id].genres| > minGenres {
      FilterMember(ids, Messy(cache, minGenres), id);
      assert id in cache ==> id in Elems(ids);
    }
  }

  /** One artist of the export. */
  datatype MessArtist = MessArtist(artistId: string, genres: seq<string>, genreCount: nat)

  /** The exported document. */
  datatype MessExport = MessExport(minGenresThreshold: int, totalArtistsFound: nat, artists: seq<MessArtist>)

  /** The export entries of the artists `ids`. */
  function Entries(cache: Cache, ids: seq<string>): seq<MessArtist>
    requires forall k :: 0 <= k < |ids| ==> ids[k] in cache
  {
    if ids == [] then []
    else
      var id := ids[|ids| - 1];
      Entries(cache, ids[..|ids| - 1]) + [MessArtist(id, cache[id].genres, |cache[id].genres|)]
  }

  /** An entry per listed artist, in order, with the artist's genres and their number. */
  lemma {:induction false} EntriesMeaning(cache: Cache, ids: seq<string>)
    requires forall k :: 0 <= k < |ids| ==> ids[k] in cache
    ensures var e := Entries(cache, ids);
      |e| == |ids| &&
      forall i :: 0 <= i < |e| ==>
        e[i].artistId == ids[i] && e[i].genres == cache[ids[i]].genres && e[i].genreCount == |e[i].genres|
  {
    if ids != [] {
      var front := ids[..|ids| - 1];
      EntriesMeaning(cache, front);
      assert forall i :: 0 <= i < |front| ==> front[i] == ids[i];
    }
  }

  function ExportOf(cache: Cache, minGenres: int, listOf: set<string> -> seq<string>): MessExport
    requires Enumerates(listOf)
  {
    var ids := listOf(cache.Keys);
    var listed := Filter(ids, Messy(cache, minGenres));
    ListedInCache(cache, minGenres, ids);
    MessExport(minGenres, |listed|, Entries(cache, listed))
  }

  lemma ListedInCache(cache: Cache, minGenres: int, ids: seq<string>)
    ensures forall k :: 0 <= k < |Filter(ids, Messy(cache, minGenres))| ==> Filter(ids, Messy(cache, minGenres))[k] in cache
  {
    var listed := Filter(ids, Messy(cache, minGenres));
    forall k | 0 <= k < |listed| ensures listed[k] in cache {
      FilterMember(ids, Messy(cache, minGenres), listed[k]);
    }
  }

  /** `export_artists_with_multiple_genres`, the document it writes; the cache is loaded once for both passes. */
  method ExportArtistsWithMultipleGenres(artistCache: Cache, minGenres: int, listOf: set<string> -> seq<string>)
    returns (exportData: MessExport)
    requires Enumerates(listOf)
    ensures exportData == ExportOf(artistCache, minGenres, listOf)
  {
    var listed := ListArtistsWithMultipleGenres(artistCache, minGenres, listOf);
    ListedInCache(artistCache, minGenres, listOf(artistCache.Keys));
    var artists: seq<MessArtist> := [];
    for i: nat := 0 to |listed|
      invariant artists == Entries(artistCache, listed[..i])
    {
      artists := AppendEntry(artistCache, listed, i, artists);
    }
    assert listed[..|listed|] == listed;
    exportData := MessExport(minGenres, |listed|, artists);
  }

  /** One pass of the export loop: the entry for the `i`-th listed artist joins the others. */
  method AppendEntry(cache: Cache, listed: seq<string>, i: nat, artists: seq<MessArtist>) returns (r: seq<MessArtist>)
    requires i < |listed| && forall k :: 0 <= k < |listed| ==> listed[k] in cache
    requires artists == Entries(cache, listed[..i])
    ensures r == Entries(cache, listed[..i + 1])
  {
    assert listed[..i + 1][..i] == listed[..i];
    var genres := cache[listed[i]].genres;
    r := artists + [MessArtist(listed[i], genres, |genres|)];
  }

  /**
   * The export records the threshold; its count is the number of artists
   * exported, which are the listed ones in order, each with its genres and
   * their number.
   */
  lemma ExportMeaning(cache: Cache, minGenres: int, listOf: set<string> -> seq<string>)
    requires Enumerates(listOf)
    ensures var e := ExportOf(cache, minGenres, listOf);
      var listed := Filter(listOf(cache.Keys), Messy(cache, minGenres));
      e.minGenresThreshold == minGenres && e.totalArtistsFound == |e.artists| == |listed| &&
      forall i :: 0 <= i < |e.artists| ==>
        e.artists[i].artistId == listed[i] && listed[i] in cache && e.artists[i].genres == cache[listed[i]].genres &&
        e.artists[i].genreCount == |cache[listed[i]].genres| > minGenres
  {
    var listed := Filter(listOf(cache.Keys), Messy(cache, minGenres));
    ListedInCache(cache, minGenres, listOf(cache.Keys));
    EntriesMeaning(cache, listed);
    forall i | 0 <= i < |listed| ensures |cache[listed[i]].genres| > minGenres {
      FilterMember(listOf(cache.Keys), Messy(cache, minGenres), listed[i]);
    }
  }
}
