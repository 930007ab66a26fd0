/**
 * `create_genre_playlists` in Playlist_Tools.py and model/Playlist_Tools.py:
 * collect the artists of a playlist's tracks, fetch the uncached ones in
 * slices of 50 and write their records, then file the tracks into genre
 * buckets from the filled cache.
 *
 * A batch response writes catalog genres, custom genres and at most one
 * regional tag; Playlist_Tools.py writes no name and takes the custom genres
 * from the mapping table, model/Playlist_Tools.py writes the name and takes
 * them from the custom-genres file. A failed slice falls back to
 * `get_artist_genres` per id, which writes its own record for an id it
 * does not find in the cache.
 */
module GenrePlaylistBuild {
  import opened Wrappers
  import opened Text
  import opened Lists
  import opened GenreDedup
  import opened Records
  import opened GenrePipeline
  import opened CacheRefresh
  import opened ArtistLookup
  import opened CacheWriters
  import opened Bucketing
  import opened TrackBuckets
  import ArtistGenreMappings
  import CustomGenreFile

  /** `genres.extend(custom_genres)` then the regional tag of the encyclopedia's country. */
  function BatchGenres(a: Artist, custom: seq<string>, country: Option<string>): seq<string>
  {
    a.genres + custom + RegionalTag(country)
  }

  /**
   * The list written is the catalog genres, then the custom genres, then
   * nothing or exactly one regional tag, Brazil taking precedence over Japan.
   */
  lemma BatchGenresShape(a: Artist, custom: seq<string>, country: Option<string>)
    ensures var g := BatchGenres(a, custom, country);
      var n := |a.genres| + |custom|;
      n <= |g| <= n + 1 && g[..n] == a.genres + custom &&
      (|g| == n + 1 <==> country.Some? && (Contains(country.value, "Brazil") || Contains(country.value, "Japan"))) &&
      (|g| == n + 1 ==> (g[n] == "brazilian music" <==> Contains(country.value, "Brazil")))
  {
    var g := BatchGenres(a, custom, country);
    var n := |a.genres| + |custom|;
    assert g[..n] == a.genres + custom;
    assert g[n..] == RegionalTag(country);
  }

  /** The record Playlist_Tools.py writes from a batch response: `genres` and `country` only. */
  function RootBatchRecord(s: Step, wiki: Encyclopedia, mappings: ArtistGenreMappings.MappingTable): (r: Record)
    ensures r.name.None? && r.country == FieldOf(wiki.country(s.artist.name))
    ensures r.genres == BatchGenres(s.artist, ArtistGenreMappings.CustomArtistGenres(mappings, s.key), wiki.country(s.artist.name))
  {
    var country := wiki.country(s.artist.name);
    Record(None, BatchGenres(s.artist, ArtistGenreMappings.CustomArtistGenres(mappings, s.key), country), FieldOf(country))
  }

  /** The record model/Playlist_Tools.py writes from a batch response: `name`, `genres` and `country`. */
  function ModelBatchRecord(s: Step, wiki: Encyclopedia, custom: CustomGenres): (r: Record)
    ensures r.name == Some(s.artist.name) && r.country == FieldOf(wiki.country(s.artist.name))
    ensures r.genres == BatchGenres(s.artist, CustomGenreFile.CustomGenresOf(custom, s.key), wiki.country(s.artist.name))
  {
    var country := wiki.country(s.artist.name);
    Record(Some(s.artist.name), BatchGenres(s.artist, CustomGenreFile.CustomGenresOf(custom, s.key), country), FieldOf(country))
  }

  /**
   * The record the fallback leaves under the id: `get_artist_genres` with
   * the artist the single request gave, which keeps a cached record and
   * otherwise writes its own.
   */
  function FallbackRecord(c: Cache, s: Step, wiki: Encyclopedia, mappings: ArtistGenreMappings.MappingTable): (r: Record)
    ensures c[s.key := r] == ArtistGenres(s.key, c, Some(s.artist), mappings, wiki.country(s.artist.name)).value.1
  {
    var res := ArtistGenres(s.key, c, Some(s.artist), mappings, wiki.country(s.artist.name));
    if s.key in c then
      assert c[s.key := c[s.key]] == c;
      c[s.key]
    else
      var c' := res.value.1;
      assert c[s.key := c'[s.key]].Keys == c'.Keys;
      c'[s.key]
  }

  /** A batch write builds the script's record; a fallback write is `get_artist_genres`'s. */
  function BuildUpdate(batchRecord: Step -> Record, wiki: Encyclopedia, mappings: ArtistGenreMappings.MappingTable): (Cache, Step) -> Record
  {
    (c: Cache, s: Step) => if s.batch then batchRecord(s) else FallbackRecord(c, s, wiki, mappings)
  }

  function RootRecords(wiki: Encyclopedia, mappings: ArtistGenreMappings.MappingTable): Step -> Record
  {
    (s: Step) => RootBatchRecord(s, wiki, mappings)
  }

  function ModelRecords(wiki: Encyclopedia, custom: CustomGenres): Step -> Record
  {
    (s: Step) => ModelBatchRecord(s, wiki, custom)
  }

  /** The cache after the fetch phase: the uncached artists of the tracks, walked in slices of 50. */
  function FilledCache(cache: Cache, tracks: seq<Item>, cat: Catalog, update: (Cache, Step) -> Record,
                       listOf: set<string> -> seq<string>): Cache
  {
    Apply(cache, Steps(Uncached(listOf(ArtistsOf(tracks)), cache), cat), update)
  }

  /** The fetch phase. */
  method FillCache(cache: Cache, tracks: seq<Item>, cat: Catalog, update: (Cache, Step) -> Record,
                   listOf: set<string> -> seq<string>)
    returns (artistCache: Cache)
    ensures artistCache == FilledCache(cache, tracks, cat, update, listOf)
  {
    var allArtistIds := AddArtists({}, tracks);
    assert allArtistIds == ArtistsOf(tracks);
    var uncachedArtistIds := Uncached(listOf(allArtistIds), cache);
    var written, writtenKeys;
    artistCache, written, writtenKeys := RefreshCache(cache, uncachedArtistIds, cat, update);
  }

  /** Playlist_Tools.py: the cache, then the buckets of normalized genres. */
  method CreateGenrePlaylistsRoot(tracks: seq<Item>, cache: Cache, cat: Catalog, wiki: Encyclopedia,
                                  mappings: ArtistGenreMappings.MappingTable, listOf: set<string> -> seq<string>,
                                  fetch: seq<string> -> seq<Option<Artist>>)
    returns (genreTracks: Buckets, artistCache: Cache)
    ensures artistCache == FilledCache(cache, tracks, cat, BuildUpdate(RootRecords(wiki, mappings), wiki, mappings), listOf)
    ensures genreTracks == NormalizedBuckets(tracks, TrackGenresOf(artistCache, fetch))
  {
    artistCache := FillCache(cache, tracks, cat, BuildUpdate(RootRecords(wiki, mappings), wiki, mappings), listOf);
    genreTracks := ProcessTracksNormalized(tracks, artistCache, fetch);
  }

  /** model/Playlist_Tools.py: the cache, then the buckets of raw genres in batches of 100. */
  method CreateGenrePlaylistsModel(tracks: seq<Item>, cache: Cache, cat: Catalog, wiki: Encyclopedia,
                                   mappings: ArtistGenreMappings.MappingTable, custom: CustomGenres,
                                   listOf: set<string> -> seq<string>, fetch: seq<string> -> seq<Option<Artist>>)
    returns (genreTracks: Buckets, artistCache: Cache)
    ensures artistCache == FilledCache(cache, tracks, cat, BuildUpdate(ModelRecords(wiki, custom), wiki, mappings), listOf)
    ensures genreTracks == Bucketed(tracks, TrackGenresOf(artistCache, fetch))
  {
    artistCache := FillCache(cache, tracks, cat, BuildUpdate(ModelRecords(wiki, custom), wiki, mappings), listOf);
    var r := ProcessTracksBatchOptimized(tracks, artistCache, fetch, 100);
    genreTracks := r.value;
  }

  // ----- what the fetch phase writes -----

  /** With a catalog that answers only for the ids asked, a cached record is never rewritten. */
  lemma FillKeepsCached(cache: Cache, tracks: seq<Item>, cat: Catalog, update: (Cache, Step) -> Record,
                        listOf: set<string> -> seq<string>, k: string)
    requires Faithful(cat) && k in cache
    ensures var r := FilledCache(cache, tracks, cat, update, listOf);
      k in r && r[k] == cache[k]
  {
    UncachedWalkKeeps(cache, Uncached(listOf(ArtistsOf(tracks)), cache), cat, update, k);
  }

  /** Every id written is an uncached artist of some non-null track. */
  lemma FillWritesOnlyArtists(cache: Cache, tracks: seq<Item>, cat: Catalog, update: (Cache, Step) -> Record,
                              listOf: set<string> -> seq<string>, k: string)
    requires Faithful(cat) && Enumerates(listOf)
    requires k in FilledCache(cache, tracks, cat, update, listOf) && k !in cache
    ensures exists j :: 0 <= j < |tracks| && tracks[j].Some? && k in tracks[j].value.artists
  {
    var ids := Uncached(listOf(ArtistsOf(tracks)), cache);
    var steps := Steps(ids, cat);
    ApplyKeys(cache, steps, update, k);
    var i :| 0 <= i < |steps| && steps[i].key == k;
    StepKeysWithin(ids, cat, steps[i]);
    assert k in Elems(listOf(ArtistsOf(tracks)));
    ArtistsOfMember(tracks, k);
  }

  /**
   * When a batch response holds the artist under the same id and no later
   * write touches it, Playlist_Tools.py leaves the batch record: catalog
   * genres, the table's custom genres and the regional tag, and no name.
   */
  lemma RootBatchWriteStays(c: Cache, steps: seq<Step>, wiki: Encyclopedia, mappings: ArtistGenreMappings.MappingTable, j: nat)
    requires j < |steps| && steps[j].batch
    requires forall i :: j < i < |steps| ==> steps[i].key != steps[j].key
    ensures var r := Apply(c, steps, BuildUpdate(RootRecords(wiki, mappings), wiki, mappings));
      var a := steps[j].artist;
      steps[j].key in r && r[steps[j].key].name.None? &&
      r[steps[j].key].genres == a.genres + ArtistGenreMappings.CustomArtistGenres(mappings, steps[j].key) + RegionalTag(wiki.country(a.name))
  {
    ApplyLast(c, steps, BuildUpdate(RootRecords(wiki, mappings), wiki, mappings), j);
  }

  /** The same in model/Playlist_Tools.py, with the name and the custom-genres file's genres. */
  lemma ModelBatchWriteStays(c: Cache, steps: seq<Step>, wiki: Encyclopedia, mappings: ArtistGenreMappings.MappingTable,
                             custom: CustomGenres, j: nat)
    requires j < |steps| && steps[j].batch
    requires forall i :: j < i < |steps| ==> steps[i].key != steps[j].key
    ensures var r := Apply(c, steps, BuildUpdate(ModelRecords(wiki, custom), wiki, mappings));
      var a := steps[j].artist;
      steps[j].key in r && r[steps[j].key].name == Some(a.name) &&
      r[steps[j].key].genres == a.genres + CustomGenreFile.CustomGenresOf(custom, steps[j].key) + RegionalTag(wiki.country(a.name))
  {
    ApplyLast(c, steps, BuildUpdate(ModelRecords(wiki, custom), wiki, mappings), j);
  }

  /** A fallback write of an id not yet cached is the record `get_artist_genres` builds, which has hyphen-distinct genres. */
  lemma FallbackWriteIsLookup(c: Cache, s: Step, wiki: Encyclopedia, mappings: ArtistGenreMappings.MappingTable, batchRecord: Step -> Record)
    requires !s.batch && s.key !in c
    ensures var r := BuildUpdate(batchRecord, wiki, mappings)(c, s);
      Distinct(Keys(r.genres, HyphenKey)) && r.name == Some(s.artist.name)
  {
    var res := ArtistGenres(s.key, c, Some(s.artist), mappings, wiki.country(s.artist.name));
    var r := FallbackRecord(c, s, wiki, mappings);
    assert c[s.key := r][s.key] == res.value.1[s.key];
  }
}
