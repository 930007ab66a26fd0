/**
 * The records three scripts write through the shared refresh loop:
 * controller/Artist_Cacher.py (`cache_artist_genres`, new artists of a
 * playlist), controller/Update_Cache.py (`main`, every cached artist) and
 * Update_Cache.py (the script body, every cached artist, country codes).
 *
 * The encyclopedia is two oracles: the infobox genres of an artist name
 * (`get_wikipedia_genres(name) or []`) and the Wikidata country.
 */
module CacheWriters {
  import opened Wrappers
  import opened Lists
  import opened Records
  import opened GenreNormalize
  import opened GenreDedup
  import opened GenrePipeline
  import opened SpotifyClient
  import opened CacheRefresh
  import opened ArtistLookup
  import ArtistGenreMappings

  /** `get_wikipedia_genres(name) or []` and `get_artist_country_wikidata(name)`. */
  datatype Encyclopedia = Encyclopedia(genres: string -> seq<string>, country: string -> Option<string>)

  // ----- controller/Artist_Cacher.py -----

  /**
   * The record of one write: catalog genres (for a failed batch, the genres
   * `get_artist_genres` gives) and encyclopedia genres, de-duplicated,
   * normalized, flattened, de-duplicated again, one regional tag, hyphen
   * de-duplicated; with the name and the encyclopedia's country.
   */
  function CacherRecord(c: Cache, s: Step, wiki: Encyclopedia, mappings: ArtistGenreMappings.MappingTable): (r: Record)
    ensures r.name == Some(s.artist.name) && r.country == FieldOf(wiki.country(s.artist.name))
    ensures Distinct(Keys(r.genres, HyphenKey))
  {
    var a := s.artist;
    var country := wiki.country(a.name);
    var genres := if s.batch then a.genres else ArtistGenres(s.key, c, Some(a), mappings, country).value.0;
    Record(Some(a.name), Pipeline(Dedup(genres + wiki.genres(a.name)), Normalized, RegionalTag(country)), FieldOf(country))
  }

  function CacherUpdate(wiki: Encyclopedia, mappings: ArtistGenreMappings.MappingTable): (Cache, Step) -> Record
  {
    (c: Cache, s: Step) => CacherRecord(c, s, wiki, mappings)
  }

  /**
   * In a failed batch `get_artist_genres` first writes its own record for the
   * id; the record written right after under the same id replaces it, so the
   * pair of writes is the one write `Apply` makes.
   */
  lemma FallbackOverwrites(c: Cache, s: Step, country: Option<string>, mappings: ArtistGenreMappings.MappingTable, r: Record)
    ensures var first := ArtistGenres(s.key, c, Some(s.artist), mappings, country).value.1;
      first[s.key := r] == c[s.key := r]
  {
    var first := ArtistGenres(s.key, c, Some(s.artist), mappings, country).value.1;
    assert first[s.key := r].Keys == c[s.key := r].Keys;
  }

  /** Every label a record stores comes from a catalog or encyclopedia genre, or is the regional tag. */
  lemma CacherRecordMember(c: Cache, a: Artist, wiki: Encyclopedia, mappings: ArtistGenreMappings.MappingTable, x: string)
    requires x in CacherRecord(c, Step(a.id, a, true), wiki, mappings).genres
    ensures (exists g :: g in a.genres + wiki.genres(a.name) && x in Normalized(g)) || x in RegionalTag(wiki.country(a.name))
  {
    var d := Dedup(a.genres + wiki.genres(a.name));
    PipelineMember(d, Normalized, RegionalTag(wiki.country(a.name)), x);
    if !(x in RegionalTag(wiki.country(a.name))) {
      var i :| 0 <= i < |d| && x in Normalized(d[i]);
      assert d[i] in a.genres + wiki.genres(a.name);
    }
  }

  /** A track the catalog returns when asked for one track: the track, or `None` when the request raises (or the track is null). */
  datatype TrackCatalog = TrackCatalog(many: seq<string> -> Option<seq<Option<Track>>>, one: string -> Option<Track>)

  function TrackOne(tc: TrackCatalog): string -> Option<Option<Track>>
  {
    (id: string) =>
      match tc.one(id)
        case Some(t) => Some(Some(t))
        case None => None
  }

  /** The credited artists of the non-null tracks. */
  function ArtistsOf(items: seq<Option<Track>>): set<string>
  {
    if items == [] then {}
    else
      ArtistsOf(items[..|items| - 1]) +
      (match items[|items| - 1] case Some(t) => Elems(t.artists) case None => {})
  }

  lemma {:induction false} ArtistsOfAppend(a: seq<Option<Track>>, b: seq<Option<Track>>)
    ensures ArtistsOf(a + b) == ArtistsOf(a) + ArtistsOf(b)
    decreases |b|
  {
    if b == [] {
      assert a + b == a;
    } else {
      var b' := b[..|b| - 1];
      assert (a + b)[..|a + b| - 1] == a + b';
      ArtistsOfAppend(a, b');
    }
  }

  /** An artist is collected iff some non-null track credits it. */
  lemma {:induction false} ArtistsOfMember(items: seq<Option<Track>>, x: string)
    ensures x in ArtistsOf(items) <==> exists k :: 0 <= k < |items| && items[k].Some? && x in items[k].value.artists
  {
    if items != [] {
      var front := items[..|items| - 1];
      ArtistsOfMember(front, x);
      assert forall k :: 0 <= k < |front| ==> front[k] == items[k];
    }
  }

  /** `[aid for aid in artist_ids if aid not in artist_cache]`, over the ids in the order listed. */
  function Uncached(ids: seq<string>, cache: Cache): (r: seq<string>)
    ensures forall x :: x in r <==> x in ids && x !in cache
    ensures Distinct(ids) ==> Distinct(r)
  {
    if ids == [] then []
    else
      var front := Uncached(ids[..|ids| - 1], cache);
      var x := ids[|ids| - 1];
      assert forall y :: y in ids[..|ids| - 1] ==> y in ids;
      assert Distinct(ids) ==> x !in ids[..|ids| - 1];
      if x in cache then front else front + [x]
  }

  /** `cache_artist_genres`'s effects: the cache it saves, its counters, and the exception its last statistic raises. */
  datatype CacherRun = CacherRun(cache: Cache, totalArtists: nat, cachedCount: int, cacheMisses: nat, error: Option<string>)

  /** The artists of the playlist's tracks, fetched in slices of 50 (one by one after a failure). */
  function PlaylistArtists(trackIds: set<string>, tc: TrackCatalog, listOf: set<string> -> seq<string>): set<string>
  {
    ArtistsOf(FetchedFrom(listOf(trackIds), SliceSize, tc.many, TrackOne(tc)))
  }

  /**
   * The pass: the set of the playlist's artists, the uncached ones in slices
   * of 50; the average time per artist divides by the number of artists,
   * which raises (after the cache is saved) when there are none.
   */
  function CacherPass(cache: Cache, trackIds: set<string>, tc: TrackCatalog, cat: Catalog,
                      wiki: Encyclopedia, mappings: ArtistGenreMappings.MappingTable,
                      listOf: set<string> -> seq<string>): CacherRun
  {
    var artistIds := PlaylistArtists(trackIds, tc, listOf);
    var uncached := Uncached(listOf(artistIds), cache);
    var steps := Steps(uncached, cat);
    CacherRun(Apply(cache, steps, CacherUpdate(wiki, mappings)), |artistIds|, |artistIds| - |uncached|, |steps|,
              if |artistIds| == 0 then Some("ZeroDivisionError") else None)
  }

  lemma ArtistsOfStep(items: seq<Option<Track>>, k: nat)
    requires k < |items|
    ensures ArtistsOf(items[..k + 1]) ==
      ArtistsOf(items[..k]) + match items[k] case Some(t) => Elems(t.artists) case None => {}
  {
    assert items[..k + 1][..k] == items[..k];
  }

  /** `for artist in track['artists']: artist_ids.add(artist['id'])`. */
  method AddTrackArtists(artistIds: set<string>, artists: seq<string>) returns (r: set<string>)
    ensures r == artistIds + Elems(artists)
  {
    r := artistIds;
    for j: nat := 0 to |artists|
      invariant r == artistIds + Elems(artists[..j])
    {
      ElemsStep(artists, j);
      r := r + {artists[j]};
    }
    assert artists[..|artists|] == artists;
  }

  /** The artists of one slice of tracks, the null tracks skipped. */
  method AddArtists(artistIds: set<string>, items: seq<Option<Track>>) returns (r: set<string>)
    ensures r == artistIds + ArtistsOf(items)
  {
    r := artistIds;
    for k: nat := 0 to |items|
      invariant r == artistIds + ArtistsOf(items[..k])
    {
      ArtistsOfStep(items, k);
      if items[k].Some? {
        r := AddTrackArtists(r, items[k].value.artists);
      }
    }
    assert items[..|items|] == items;
  }

  /** The track loop of `cache_artist_genres`. */
  method CollectArtistIds(trackIdsList: seq<string>, tc: TrackCatalog) returns (artistIds: set<string>)
    ensures artistIds == ArtistsOf(FetchedFrom(trackIdsList, SliceSize, tc.many, TrackOne(tc)))
  {
    artistIds := {};
    ghost var all: seq<Option<Track>> := [];
    var i := 0;
    while i < |trackIdsList|
      invariant 0 <= i <= |trackIdsList|
      invariant all + FetchedFrom(trackIdsList[i..], SliceSize, tc.many, TrackOne(tc)) ==
                FetchedFrom(trackIdsList, SliceSize, tc.many, TrackOne(tc))
      invariant artistIds == ArtistsOf(all)
      decreases |trackIdsList| - i
    {
      var end := if i + SliceSize <= |trackIdsList| then i + SliceSize else |trackIdsList|;
      FetchedPrefixStep(trackIdsList, i, SliceSize, tc.many, TrackOne(tc), all);
      var tracks := FetchOneSlice(trackIdsList[i..end], tc.many, TrackOne(tc));
      ArtistsOfAppend(all, tracks);
      artistIds := AddArtists(artistIds, tracks);
      all := all + tracks;
      i := end;
    }
    assert trackIdsList[i..] == [];
    assert all + FetchedFrom(trackIdsList[i..], SliceSize, tc.many, TrackOne(tc)) == all;
  }

  /** `cache_artist_genres`: the artists of the playlist's tracks, then the walk over the uncached ones. */
  method CacheArtistGenres(cache: Cache, trackIds: set<string>, tc: TrackCatalog, cat: Catalog,
                           wiki: Encyclopedia, mappings: ArtistGenreMappings.MappingTable,
                           listOf: set<string> -> seq<string>)
    returns (r: CacherRun)
    ensures r == CacherPass(cache, trackIds, tc, cat, wiki, mappings, listOf)
  {
    var trackIdsList := listOf(trackIds);
    var artistIds := CollectArtistIds(trackIdsList, tc);
    var totalArtists := |artistIds|;
    var uncachedArtistIds := Uncached(listOf(artistIds), cache);
    var cachedCount := |artistIds| - |uncachedArtistIds|;
    var artistCache, cacheMisses, writtenKeys := RefreshCache(cache, uncachedArtistIds, cat, CacherUpdate(wiki, mappings));
    var error := if totalArtists == 0 then Some("ZeroDivisionError") else None;
    r := CacherRun(artistCache, totalArtists, cachedCount, cacheMisses, error);
  }

  /** A set splits into the part outside another set and the part inside it. */
  lemma SplitCard(a: set<string>, b: set<string>)
    ensures |a| == |a - b| + |a * b|
  {
    assert a == (a - b) + (a * b);
    assert (a - b) * (a * b) == {};
  }

  /**
   * `cached_count` is the number of the playlist's artists already in the
   * cache, and the ids fetched are exactly the others.
   */
  lemma CachedCount(artistIds: set<string>, cache: Cache, listOf: set<string> -> seq<string>)
    requires Enumerates(listOf) && ListsOnce(listOf)
    ensures Elems(Uncached(listOf(artistIds), cache)) == artistIds - cache.Keys
    ensures |artistIds| - |Uncached(listOf(artistIds), cache)| == |artistIds * cache.Keys|
  {
    var l := listOf(artistIds);
    var u := Uncached(l, cache);
    assert Elems(l) == artistIds && Distinct(l);
    assert Elems(u) == artistIds - cache.Keys by {
      forall x ensures x in Elems(u) <==> x in artistIds - cache.Keys {
        assert x in u <==> x in l && x !in cache;
      }
    }
    DistinctCard(u);
    SplitCard(artistIds, cache.Keys);
  }

  /**
   * With a catalog that answers only for the ids asked, walking ids none of
   * which is cached rewrites no cached record, whatever each write builds.
   */
  lemma UncachedWalkKeeps(cache: Cache, uncached: seq<string>, cat: Catalog, update: (Cache, Step) -> Record, k: string)
    requires Faithful(cat) && (forall x :: x in uncached ==> x !in cache) && k in cache
    ensures var r := Apply(cache, Steps(uncached, cat), update);
      k in r && r[k] == cache[k]
  {
    var steps := Steps(uncached, cat);
    forall i | 0 <= i < |steps|
      ensures steps[i].key != k
    {
      StepKeysWithin(uncached, cat, steps[i]);
    }
    ApplyOutside(cache, steps, update, k);
  }

  /**
   * The cacher's walk over the uncached ids keeps every cached record, and
   * every new key is one of the ids, holding a named record with distinct
   * hyphen keys.
   */
  lemma CacherKeepsCached(cache: Cache, uncached: seq<string>, cat: Catalog,
                          wiki: Encyclopedia, mappings: ArtistGenreMappings.MappingTable, k: string)
    requires Faithful(cat) && forall x :: x in uncached ==> x !in cache
    ensures var r := Apply(cache, Steps(uncached, cat), CacherUpdate(wiki, mappings));
      (k in cache ==> k in r && r[k] == cache[k]) &&
      (k in r && k !in cache ==> k in uncached && r[k].name.Some? && Distinct(Keys(r[k].genres, HyphenKey)))
  {
    if k in cache {
      UncachedWalkKeeps(cache, uncached, cat, CacherUpdate(wiki, mappings), k);
    }
    CacherNewKey(cache, uncached, cat, wiki, mappings, k);
  }

  /** A key the cacher's walk adds is one of the ids, with a named record and distinct hyphen keys. */
  lemma CacherNewKey(cache: Cache, uncached: seq<string>, cat: Catalog,
                     wiki: Encyclopedia, mappings: ArtistGenreMappings.MappingTable, k: string)
    requires Faithful(cat)
    ensures var r := Apply(cache, Steps(uncached, cat), CacherUpdate(wiki, mappings));
      k in r && k !in cache ==> k in uncached && r[k].name.Some? && Distinct(Keys(r[k].genres, HyphenKey))
  {
    var p := (rec: Record) => rec.name.Some? && Distinct(Keys(rec.genres, HyphenKey));
    NewKeyWritten(cache, uncached, cat, CacherUpdate(wiki, mappings), p, k);
  }

  /** A key a walk over `ids` adds is one of them, holding a record of the kind every write makes. */
  lemma NewKeyWritten(cache: Cache, ids: seq<string>, cat: Catalog, update: (Cache, Step) -> Record,
                      p: Record -> bool, k: string)
    requires Faithful(cat) && forall c, s :: p(update(c, s))
    ensures var r := Apply(cache, Steps(ids, cat), update);
      k in r && k !in cache ==> k in ids && p(r[k])
  {
    var steps := Steps(ids, cat);
    ApplyKeys(cache, steps, update, k);
    if k in Apply(cache, steps, update) && k !in cache {
      var i :| 0 <= i < |steps| && steps[i].key == k;
      StepKeysWithin(ids, cat, steps[i]);
      ApplyWritten(cache, steps, update, p, k);
    }
  }

  /** A playlist without tracks leaves the cache as it was, and the statistics raise. */
  lemma CacherEmptyPlaylist(cache: Cache, tc: TrackCatalog, cat: Catalog,
                            wiki: Encyclopedia, mappings: ArtistGenreMappings.MappingTable,
                            listOf: set<string> -> seq<string>)
    requires Enumerates(listOf)
    ensures var r := CacherPass(cache, {}, tc, cat, wiki, mappings, listOf);
      r.cache == cache && r.cacheMisses == 0 && r.error == Some("ZeroDivisionError")
  {
    assert Elems(listOf({})) == {};
    NoElemsEmpty(listOf({}));
    assert PlaylistArtists({}, tc, listOf) == {};
    assert Elems(listOf({})) == {};
  }

  // ----- controller/Update_Cache.py -----

  /** `artist_cache.get(artist_id, {}).get('country')` when truthy, else the Wikidata country. */
  function CountryFor(c: Cache, key: string, a: Artist, wiki: Encyclopedia): (r: Option<string>)
    ensures key in c && c[key].Country().Some? && c[key].Country().value != "" ==> r == c[key].Country()
    ensures !(key in c && c[key].Country().Some? && c[key].Country().value != "") ==> r == wiki.country(a.name)
  {
    if key in c && c[key].Country().Some? && c[key].Country().value != "" then c[key].Country()
    else wiki.country(a.name)
  }

  /**
   * The refreshed record: catalog and encyclopedia genres de-duplicated, the
   * custom genres they lack appended, then normalized, flattened,
   * de-duplicated, one regional tag and hyphen de-duplication.
   */
  function RefreshedRecord(c: Cache, s: Step, wiki: Encyclopedia, mappings: ArtistGenreMappings.MappingTable): (r: Record)
    ensures r.name == Some(s.artist.name) && r.country == FieldOf(CountryFor(c, s.key, s.artist, wiki))
    ensures Distinct(Keys(r.genres, HyphenKey))
  {
    var a := s.artist;
    var country := CountryFor(c, s.key, a, wiki);
    var combined := WithCustom(Dedup(a.genres + wiki.genres(a.name)), ArtistGenreMappings.CustomArtistGenres(mappings, s.key));
    Record(Some(a.name), Pipeline(combined, Normalized, RegionalTag(country)), FieldOf(country))
  }

  function RefreshedUpdate(wiki: Encyclopedia, mappings: ArtistGenreMappings.MappingTable): (Cache, Step) -> Record
  {
    (c: Cache, s: Step) => RefreshedRecord(c, s, wiki, mappings)
  }

  /** `main`: every cached id, in slices of 50; `updated_count` counts the writes. */
  method UpdateAllArtists(cache: Cache, cat: Catalog, wiki: Encyclopedia, mappings: ArtistGenreMappings.MappingTable,
                          listOf: set<string> -> seq<string>)
    returns (artistCache: Cache, updatedCount: nat)
    ensures artistCache == Apply(cache, Steps(listOf(cache.Keys), cat), RefreshedUpdate(wiki, mappings))
    ensures updatedCount == |Steps(listOf(cache.Keys), cat)|
  {
    var artistIds := listOf(cache.Keys);
    var writtenKeys;
    artistCache, updatedCount, writtenKeys := RefreshCache(cache, artistIds, cat, RefreshedUpdate(wiki, mappings));
  }

  /** With a catalog that answers only for the ids asked, the refresh adds no key and removes none. */
  lemma RefreshKeepsKeys(cache: Cache, cat: Catalog, wiki: Encyclopedia, mappings: ArtistGenreMappings.MappingTable,
                         listOf: set<string> -> seq<string>, k: string)
    requires Faithful(cat) && Enumerates(listOf)
    ensures k in Apply(cache, Steps(listOf(cache.Keys), cat), RefreshedUpdate(wiki, mappings)) <==> k in cache
  {
    var steps := Steps(listOf(cache.Keys), cat);
    ApplyKeys(cache, steps, RefreshedUpdate(wiki, mappings), k);
    if exists i :: 0 <= i < |steps| && steps[i].key == k {
      var i :| 0 <= i < |steps| && steps[i].key == k;
      StepKeysWithin(listOf(cache.Keys), cat, steps[i]);
      assert k in Elems(listOf(cache.Keys));
    }
  }

  /** A truthy country already cached survives the refresh. */
  lemma RefreshKeepsCountry(cache: Cache, steps: seq<Step>, wiki: Encyclopedia, mappings: ArtistGenreMappings.MappingTable,
                            k: string, country: string)
    requires k in cache && cache[k].country == Present(country) && country != ""
    ensures var r := Apply(cache, steps, RefreshedUpdate(wiki, mappings));
      k in r && r[k].country == Present(country)
  {
    var update := RefreshedUpdate(wiki, mappings);
    var inv := (c: Cache) => k in c && c[k].country == Present(country);
    forall c: Cache, s: Step | inv(c) ensures inv(c[s.key := update(c, s)]) {
      if s.key == k {
        assert c[k].Country() == Some(country);
      }
    }
    ApplyInvariant(cache, steps, update, inv);
  }

  /** Every refreshed record is named and its genres have distinct hyphen keys. */
  lemma RefreshedRecordsDistinct(cache: Cache, steps: seq<Step>, wiki: Encyclopedia, mappings: ArtistGenreMappings.MappingTable, k: string)
    requires exists i :: 0 <= i < |steps| && steps[i].key == k
    ensures var r := Apply(cache, steps, RefreshedUpdate(wiki, mappings));
      k in r && r[k].name.Some? && Distinct(Keys(r[k].genres, HyphenKey))
  {
    var p := (rec: Record) => rec.name.Some? && Distinct(Keys(rec.genres, HyphenKey));
    ApplyWritten(cache, steps, RefreshedUpdate(wiki, mappings), p, k);
  }

  /** A custom genre is appended only when the catalog and encyclopedia genres lack it; each keeps its key. */
  lemma RefreshedKeepsCustom(c: Cache, s: Step, wiki: Encyclopedia, mappings: ArtistGenreMappings.MappingTable, g: string)
    requires g in ArtistGenreMappings.CustomArtistGenres(mappings, s.key)
    ensures forall x :: x in Normalized(g) ==> HyphenKey(x) in Keys(RefreshedRecord(c, s, wiki, mappings).genres, HyphenKey)
  {
    var a := s.artist;
    var combined := WithCustom(Dedup(a.genres + wiki.genres(a.name)), ArtistGenreMappings.CustomArtistGenres(mappings, s.key));
    var tag := RegionalTag(CountryFor(c, s.key, a, wiki));
    assert g in combined;
    var i :| 0 <= i < |combined| && combined[i] == g;
    forall x | x in Normalized(g) ensures HyphenKey(x) in Keys(Pipeline(combined, Normalized, tag), HyphenKey) {
      PipelineKeepsKeys(combined, Normalized, tag, x);
    }
  }

  // ----- Update_Cache.py -----

  /**
   * The record of the country-code refresh: catalog and encyclopedia genres
   * de-duplicated, the custom genres they lack, and the tag of the
   * catalog's country code; no normalization and no name.
   */
  function CodeRecord(s: Step, wiki: Encyclopedia, mappings: ArtistGenreMappings.MappingTable): (r: Record)
    ensures r.name.None? && r.country == FieldOf(s.artist.country)
  {
    var a := s.artist;
    var combined := WithCustom(Dedup(a.genres + wiki.genres(a.name)), ArtistGenreMappings.CustomArtistGenres(mappings, s.key));
    Record(None, combined + CodeTag(a.country), FieldOf(a.country))
  }

  /** Every stored genre is a catalog, encyclopedia or custom genre, or the code tag, and each of those is stored. */
  lemma CodeRecordMember(s: Step, wiki: Encyclopedia, mappings: ArtistGenreMappings.MappingTable, x: string)
    ensures x in CodeRecord(s, wiki, mappings).genres <==>
      x in s.artist.genres || x in wiki.genres(s.artist.name) ||
      x in ArtistGenreMappings.CustomArtistGenres(mappings, s.key) || x in CodeTag(s.artist.country)
  {
    var a := s.artist;
    var both := a.genres + wiki.genres(a.name);
    var d := Dedup(both);
    if x in both {
      var i :| 0 <= i < |both| && both[i] == x;
      assert x in d;
    }
    if x in d {
      var i :| 0 <= i < |d| && d[i] == x;
      assert x in both;
    }
  }

  function CodeUpdate(wiki: Encyclopedia, mappings: ArtistGenreMappings.MappingTable): (Cache, Step) -> Record
  {
    (c: Cache, s: Step) => CodeRecord(s, wiki, mappings)
  }

  /** The script body: every cached id, in slices of 50. */
  method UpdateCountryCodes(cache: Cache, cat: Catalog, wiki: Encyclopedia, mappings: ArtistGenreMappings.MappingTable,
                            listOf: set<string> -> seq<string>)
    returns (artistCache: Cache, updatedCount: nat)
    ensures artistCache == Apply(cache, Steps(listOf(cache.Keys), cat), CodeUpdate(wiki, mappings))
    ensures updatedCount == |Steps(listOf(cache.Keys), cat)|
  {
    var artistIds := listOf(cache.Keys);
    var writtenKeys;
    artistCache, updatedCount, writtenKeys := RefreshCache(cache, artistIds, cat, CodeUpdate(wiki, mappings));
  }

  /** A rewritten record loses its name; its genres are the raw genres and the code tag, nothing normalized. */
  lemma CodeRecordsRaw(cache: Cache, steps: seq<Step>, wiki: Encyclopedia, mappings: ArtistGenreMappings.MappingTable, j: nat)
    requires j < |steps| && forall i :: j < i < |steps| ==> steps[i].key != steps[j].key
    ensures var r := Apply(cache, steps, CodeUpdate(wiki, mappings));
      var a := steps[j].artist;
      steps[j].key in r && r[steps[j].key].name.None? &&
      r[steps[j].key].genres == WithCustom(Dedup(a.genres + wiki.genres(a.name)),
                                          ArtistGenreMappings.CustomArtistGenres(mappings, steps[j].key)) + CodeTag(a.country)
  {
    ApplyLast(cache, steps, CodeUpdate(wiki, mappings), j);
  }

  /** The Brazilian code tag is appended even when 'Brazilian Music' is already there: nothing de-duplicates it. */
  lemma CodeTagKeptBesideBrazilianMusic(a: Artist, wiki: Encyclopedia, mappings: ArtistGenreMappings.MappingTable)
    requires a.country == Some("BR") && "Brazilian Music" in a.genres
    ensures var g := CodeRecord(Step(a.id, a, true), wiki, mappings).genres;
      "Brazilian Music" in g && "brazilian music" in g
  {
    var s := Step(a.id, a, true);
    CodeRecordMember(s, wiki, mappings, "Brazilian Music");
    CodeRecordMember(s, wiki, mappings, "brazilian music");
    assert CodeTag(a.country) == ["brazilian music"];
  }
}
