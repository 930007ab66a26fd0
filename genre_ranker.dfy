/**
 * Genre_Ranker.py, `rank_playlist_genres`: the artists of the playlist that
 * are not cached are fetched in slices of 50 and cached with their catalog
 * genres, their custom genres and at most one regional tag; then every
 * track id gets the raw genres `get_track_genres` gives it, each distinct
 * raw genre is normalized once, every track counts once for each label of
 * its raw genres, and the labels are ranked by count, largest first, ties
 * by name. The regional tag is the one `GenrePipeline.RegionalTag` defines
 * (Genre_Ranker.py:64-68 repeats the test of controller/Update_Cache.py:51-55).
 * The catalog's answer to a slice is `many` (`None` when the call
 * raises), Wikidata's country for an artist name is `countryOf`, and the
 * order `list(set)` and dictionary iteration give is `listOf`.
 */
module GenreRanker {
  import opened Wrappers
  import opened Text
  import opened Lists
  import opened Records
  import opened Sorting
  import opened PlaylistWrites
  import opened ArtistGenreMappings
  import opened CacheWriters
  import opened GenrePipeline
  import opened TrackBuckets
  import opened CustomGenreUpdater

  // ----- pre-loading the uncached artists -----

  /** `aid not in artist_cache`. */
  function NotCached(cache: Cache): string -> bool
  {
    a => a !in cache
  }

  /** The record a fetched artist is cached with. */
  function PreloadRecord(a: Artist, table: MappingTable, countryOf: string -> Option<string>): Record
  {
    var country := countryOf(a.name);
    Record(Some(a.name), a.genres + CustomArtistGenres(table, a.id) + RegionalTag(country), FieldOf(country))
  }

  /**
   * The record holds the artist's name and Wikidata country; its genres
   * are the catalog's, then the custom ones, then at most one regional tag.
   */
  lemma PreloadRecordMeaning(a: Artist, table: MappingTable, countryOf: string -> Option<string>)
    ensures var r := PreloadRecord(a, table, countryOf);
      var custom := CustomArtistGenres(table, a.id);
      r.name == Some(a.name) && r.Country() == countryOf(a.name) &&
      |a.genres| + |custom| <= |r.genres| <= |a.genres| + |custom| + 1 &&
      r.genres[..|a.genres|] == a.genres &&
      r.genres[|a.genres|..|a.genres| + |custom|] == custom &&
      r.genres[|a.genres| + |custom|..] == RegionalTag(countryOf(a.name))
  {
  }

  /** The artists of a response that are not `null`, in order. */
  function NonNull(resp: seq<Option<Artist>>): seq<Artist>
  {
    if resp == [] then []
    else NonNull(resp[..|resp| - 1]) + match resp[|resp| - 1] case Some(a) => [a] case None => []
  }

  lemma {:induction false} NonNullMember(resp: seq<Option<Artist>>, a: Artist)
    ensures a in NonNull(resp) <==> Some(a) in resp
  {
    if resp != [] {
      var front := resp[..|resp| - 1];
      NonNullMember(front, a);
      assert resp == front + [resp[|resp| - 1]];
    }
  }

  lemma NonNullStep(resp: seq<Option<Artist>>, k: nat)
    requires k < |resp|
    ensures resp[k].Some? ==> NonNull(resp[..k + 1]) == NonNull(resp[..k]) + [resp[k].value]
    ensures resp[k].None? ==> NonNull(resp[..k + 1]) == NonNull(resp[..k])
  {
    assert resp[..k + 1][..k] == resp[..k];
    if resp[k].None? {
      assert NonNull(resp[..k]) + [] == NonNull(resp[..k]);
    }
  }

  /** The artists one call returns: none when it raised. */
  function Answered(answer: Option<seq<Option<Artist>>>): seq<Artist>
  {
    match answer case None => [] case Some(resp) => NonNull(resp)
  }

  /** The artists the slices of `ids` from `i` on return; a slice whose call raises returns none. */
  function Fetched(ids: seq<string>, i: nat, many: seq<string> -> Option<seq<Option<Artist>>>): seq<Artist>
    decreases |ids| - i
  {
    if i >= |ids| then []
    else Answered(many(ids[i..SliceEnd(|ids|, i)])) + Fetched(ids, SliceEnd(|ids|, i), many)
  }

  /**
   * Every artist fetched comes from the answer of a call for a slice of the
   * ids: there is no per-artist retry, so the ids of a slice whose call
   * raised are fetched by no other call.
   */
  lemma {:induction false} FetchedFrom(ids: seq<string>, i: nat, many: seq<string> -> Option<seq<Option<Artist>>>, a: Artist)
    requires i <= |ids| && a in Fetched(ids, i, many)
    ensures exists lo :: (i <= lo < |ids| && many(ids[lo..SliceEnd(|ids|, lo)]).Some? &&
      Some(a) in many(ids[lo..SliceEnd(|ids|, lo)]).value)
    decreases |ids| - i
  {
    var end := SliceEnd(|ids|, i);
    var head := match many(ids[i..end]) case None => [] case Some(resp) => NonNull(resp);
    assert Fetched(ids, i, many) == head + Fetched(ids, end, many);
    if a in head {
      NonNullMember(many(ids[i..end]).value, a);
    } else {
      FetchedFrom(ids, end, many, a);
    }
  }

  /** When every call raises, nothing is fetched. */
  lemma {:induction false} FetchedNone(ids: seq<string>, i: nat, many: seq<string> -> Option<seq<Option<Artist>>>)
    requires forall s :: many(s).None?
    ensures Fetched(ids, i, many) == []
    decreases |ids| - i
  {
    if i < |ids| {
      FetchedNone(ids, SliceEnd(|ids|, i), many);
    }
  }

  /** `PreloadRecord` as a function value. */
  function RecordOf(table: MappingTable, countryOf: string -> Option<string>): Artist -> Record
  {
    a => PreloadRecord(a, table, countryOf)
  }

  /** The cache once each fetched artist, in turn, is written under its id with the record `rec` gives it. */
  function Store(cache: Cache, arts: seq<Artist>, rec: Artist -> Record): Cache
  {
    if arts == [] then cache
    else
      var a := arts[|arts| - 1];
      Store(cache, arts[..|arts| - 1], rec)[a.id := rec(a)]
  }

  lemma {:induction false} StoreAppend(cache: Cache, a: seq<Artist>, b: seq<Artist>, rec: Artist -> Record)
    ensures Store(cache, a + b, rec) == Store(Store(cache, a, rec), b, rec)
  {
    if b == [] {
      assert a + b == a;
    } else {
      var front := b[..|b| - 1];
      StoreAppend(cache, a, front, rec);
      assert (a + b)[..|a + b| - 1] == a + front;
    }
  }

  lemma StoreSnoc(cache: Cache, arts: seq<Artist>, a: Artist, rec: Artist -> Record)
    ensures Store(cache, arts + [a], rec) == Store(cache, arts, rec)[a.id := rec(a)]
  {
    assert (arts + [a])[..|arts|] == arts;
  }

  /** An id no fetched artist carries keeps its cached record, or stays out. */
  lemma {:induction false} StoreUntouched(cache: Cache, arts: seq<Artist>, rec: Artist -> Record, k: string)
    requires forall j :: 0 <= j < |arts| ==> arts[j].id != k
    ensures var r := Store(cache, arts, rec);
      (k in r <==> k in cache) && (k in cache ==> r[k] == cache[k])
  {
    if arts != [] {
      var front := arts[..|arts| - 1];
      assert forall j :: 0 <= j < |front| ==> front[j] == arts[j];
      StoreUntouched(cache, front, rec, k);
    }
  }

  /** An id some fetched artist carries holds the record of such an artist (the last one). */
  lemma {:induction false} StoreWritten(cache: Cache, arts: seq<Artist>, rec: Artist -> Record, k: string)
    requires exists j :: 0 <= j < |arts| && arts[j].id == k
    ensures var r := Store(cache, arts, rec);
      k in r && exists j :: 0 <= j < |arts| && arts[j].id == k && r[k] == rec(arts[j])
  {
    var n := |arts| - 1;
    var front := arts[..n];
    if arts[n].id != k {
      var j :| 0 <= j < |arts| && arts[j].id == k;
      assert front[j] == arts[j];
      StoreWritten(cache, front, rec, k);
      var i :| 0 <= i < |front| && front[i].id == k && Store(cache, front, rec)[k] == rec(front[i]);
      assert arts[i] == front[i];
    }
  }

  /** The uncached artist ids of the playlist, in the order `list(set)` gives. */
  function UncachedIds(cache: Cache, tracks: seq<Item>, listOf: set<string> -> seq<string>): seq<string>
  {
    Filter(listOf(ArtistsOf(tracks)), NotCached(cache))
  }

  /** The cache after the pre-load. */
  function Preloaded(cache: Cache, tracks: seq<Item>, listOf: set<string> -> seq<string>,
                     many: seq<string> -> Option<seq<Option<Artist>>>, table: MappingTable,
                     countryOf: string -> Option<string>): Cache
  {
    Store(cache, Fetched(UncachedIds(cache, tracks, listOf), 0, many), RecordOf(table, countryOf))
  }

  /**
   * The pre-load leaves a record the same unless a slice call for uncached
   * ids of the playlist answered with an artist of that id, whose record it
   * then is; when every call raises the cache is unchanged.
   */
  lemma PreloadedMeaning(cache: Cache, tracks: seq<Item>, listOf: set<string> -> seq<string>,
                         many: seq<string> -> Option<seq<Option<Artist>>>, table: MappingTable,
                         countryOf: string -> Option<string>, k: string)
    ensures var r := Preloaded(cache, tracks, listOf, many, table, countryOf);
      var ids := UncachedIds(cache, tracks, listOf);
      (k in r && (k !in cache || r[k] != cache[k])) ==>
        exists a, lo :: 0 <= lo < |ids| && many(ids[lo..SliceEnd(|ids|, lo)]).Some? &&
          Some(a) in many(ids[lo..SliceEnd(|ids|, lo)]).value && a.id == k && r[k] == PreloadRecord(a, table, countryOf)
    ensures (forall s :: many(s).None?) ==> Preloaded(cache, tracks, listOf, many, table, countryOf) == cache
  {
    var ids := UncachedIds(cache, tracks, listOf);
    var arts := Fetched(ids, 0, many);
    var r := Preloaded(cache, tracks, listOf, many, table, countryOf);
    if k in r && (k !in cache || r[k] != cache[k]) {
      if forall j :: 0 <= j < |arts| ==> arts[j].id != k {
        StoreUntouched(cache, arts, RecordOf(table, countryOf), k);
      }
      StoreWritten(cache, arts, RecordOf(table, countryOf), k);
      var j :| 0 <= j < |arts| && arts[j].id == k && r[k] == RecordOf(table, countryOf)(arts[j]);
      FetchedFrom(ids, 0, many, arts[j]);
    }
    if forall s :: many(s).None? {
      FetchedNone(ids, 0, many);
    }
  }

  /** One fetched artist's record, as the loop body builds it. */
  method BuildRecord(artist: Artist, table: MappingTable, countryOf: string -> Option<string>) returns (r: Record)
    ensures r == RecordOf(table, countryOf)(artist)
  {
    var country := countryOf(artist.name);
    var genres := artist.genres + CustomArtistGenres(table, artist.id) + RegionalTag(country);
    r := Record(Some(artist.name), genres, FieldOf(country));
  }

  /** The body of the loop over one response. */
  method StoreArtists(c: Cache, resp: seq<Option<Artist>>, table: MappingTable, countryOf: string -> Option<string>)
    returns (c': Cache)
    ensures c' == Store(c, NonNull(resp), RecordOf(table, countryOf))
  {
    c' := c;
    for k: nat := 0 to |resp|
      invariant c' == Store(c, NonNull(resp[..k]), RecordOf(table, countryOf))
    {
      NonNullStep(resp, k);
      if resp[k].Some? {
        var artist := resp[k].value;
        var record := BuildRecord(artist, table, countryOf);
        StoreSnoc(c, NonNull(resp[..k]), artist, RecordOf(table, countryOf));
        c' := c'[artist.id := record];
        assert c' == Store(c, NonNull(resp[..k + 1]), RecordOf(table, countryOf));
      }
    }
    assert resp[..|resp|] == resp;
  }

  lemma FetchedStep(done: seq<Artist>, ids: seq<string>, i: nat, many: seq<string> -> Option<seq<Option<Artist>>>)
    requires i < |ids|
    ensures var end := SliceEnd(|ids|, i);
      (done + Answered(many(ids[i..end]))) + Fetched(ids, end, many) == done + Fetched(ids, i, many)
  {
  }

  /** One slice of the pre-load loop: the artists of an answer are stored, and a raising call stores none. */
  method PreloadSlice(c: Cache, ghost cache: Cache, ghost done: seq<Artist>, answer: Option<seq<Option<Artist>>>,
                      table: MappingTable, countryOf: string -> Option<string>)
    returns (c': Cache)
    requires c == Store(cache, done, RecordOf(table, countryOf))
    ensures c' == Store(cache, done + Answered(answer), RecordOf(table, countryOf))
  {
    c' := c;
    if answer.Some? {
      c' := StoreArtists(c, answer.value, table, countryOf);
    }
    StoreAppend(cache, done, Answered(answer), RecordOf(table, countryOf));
  }

  /** The pre-load loop over slices of 50; a slice whose call raises is skipped. */
  method PreloadArtists(cache: Cache, tracks: seq<Item>, listOf: set<string> -> seq<string>,
                        many: seq<string> -> Option<seq<Option<Artist>>>, table: MappingTable,
                        countryOf: string -> Option<string>)
    returns (artistCache: Cache)
    ensures artistCache == Preloaded(cache, tracks, listOf, many, table, countryOf)
  {
    var allArtistIds := AddArtists({}, tracks);
    assert allArtistIds == ArtistsOf(tracks);
    var uncachedArtistIds := FilterLoop(listOf(allArtistIds), NotCached(cache));
    ghost var rec := RecordOf(table, countryOf);
    artistCache := cache;
    ghost var done: seq<Artist> := [];
    var i := 0;
    while i < |uncachedArtistIds|
      invariant i <= |uncachedArtistIds|
      invariant done + Fetched(uncachedArtistIds, i, many) == Fetched(uncachedArtistIds, 0, many)
      invariant artistCache == Store(cache, done, rec)
      decreases |uncachedArtistIds| - i
    {
      var end := SliceEnd(|uncachedArtistIds|, i);
      var answer := many(uncachedArtistIds[i..end]);
      artistCache := PreloadSlice(artistCache, cache, done, answer, table, countryOf);
      FetchedStep(done, uncachedArtistIds, i, many);
      done := done + Answered(answer);
      i := end;
    }
    assert Fetched(uncachedArtistIds, i, many) == [];
    assert done + [] == done;
  }

  // ----- counting -----

  /** `genre_counts[genre]` of a `defaultdict(int)`. */
  function Get(counts: map<string, nat>, g: string): nat
  {
    if g in counts then counts[g] else 0
  }

  /** `for genre in keys: genre_counts[genre] += 1`. */
  function Bump(counts: map<string, nat>, keys: set<string>): (r: map<string, nat>)
    ensures r.Keys == counts.Keys + keys
    ensures forall g :: Get(r, g) == Get(counts, g) + if g in keys then 1 else 0
  {
    map g | g in counts.Keys + keys :: Get(counts, g) + if g in keys then 1 else 0
  }

  /** The labels of one recorded track: the set `normalized_genres_per_track`. */
  function LabelsOf(m: map<string, set<string>>, nm: map<string, seq<string>>): string -> set<string>
  {
    id => MappedLabels(nm, RawOf(m, id))
  }

  /** The counts once the track ids of `ids` are visited in turn, each counting once for each of its labels. */
  function Counts(labelsOf: string -> set<string>, ids: seq<string>): map<string, nat>
  {
    if ids == [] then map[]
    else Bump(Counts(labelsOf, ids[..|ids| - 1]), labelsOf(ids[|ids| - 1]))
  }

  /** The visited track ids that have label `g`. */
  function TracksWith(labelsOf: string -> set<string>, ids: seq<string>, g: string): set<string>
  {
    set id | id in Elems(ids) && g in labelsOf(id)
  }

  /** A label is counted only once some track gave it. */
  lemma {:induction false} CountsPositive(labelsOf: string -> set<string>, ids: seq<string>, g: string)
    ensures g in Counts(labelsOf, ids) ==> Counts(labelsOf, ids)[g] > 0
  {
    if ids != [] {
      CountsPositive(labelsOf, ids[..|ids| - 1], g);
    }
  }

  /** When each track id is visited once, a label's count is the number of tracks that have it. */
  lemma {:induction false} CountsTracks(labelsOf: string -> set<string>, ids: seq<string>, g: string)
    requires Distinct(ids)
    ensures Get(Counts(labelsOf, ids), g) == |TracksWith(labelsOf, ids, g)|
  {
    if ids != [] {
      var n := |ids| - 1;
      var front := ids[..n];
      var last := ids[n];
      assert Distinct(front);
      CountsTracks(labelsOf, front, g);
      assert last !in Elems(front);
      ElemsStep(ids, n);
      assert ids[..n + 1] == ids;
      if g in labelsOf(last) {
        assert TracksWith(labelsOf, ids, g) == TracksWith(labelsOf, front, g) + {last};
      } else {
        assert TracksWith(labelsOf, ids, g) == TracksWith(labelsOf, front, g);
      }
    }
  }

  /**
   * When each track id is visited once, a label's count is the number of
   * tracks that have it: a track adds at most one to it however many of its
   * raw genres give the label; and the labels counted are those some track
   * has.
   */
  lemma CountsMeaning(labelsOf: string -> set<string>, ids: seq<string>, g: string)
    requires Distinct(ids)
    ensures Get(Counts(labelsOf, ids), g) == |TracksWith(labelsOf, ids, g)|
    ensures g in Counts(labelsOf, ids) <==> TracksWith(labelsOf, ids, g) != {}
  {
    CountsTracks(labelsOf, ids, g);
    CountsPositive(labelsOf, ids, g);
  }

  /** The counts do not depend on the order the track ids are visited in. */
  lemma CountsOrderFree(labelsOf: string -> set<string>, a: seq<string>, b: seq<string>)
    requires Distinct(a) && Distinct(b) && Elems(a) == Elems(b)
    ensures Counts(labelsOf, a) == Counts(labelsOf, b)
  {
    forall g ensures Get(Counts(labelsOf, a), g) == Get(Counts(labelsOf, b), g) &&
                     (g in Counts(labelsOf, a) <==> g in Counts(labelsOf, b)) {
      CountsMeaning(labelsOf, a, g);
      CountsMeaning(labelsOf, b, g);
      assert TracksWith(labelsOf, a, g) == TracksWith(labelsOf, b, g);
    }
  }

  /** A track listed twice with the same genres leaves step 1's map as it was. */
  lemma RepeatedTrackIgnored(tracks: seq<Item>, genresOf: Track -> set<string>, t: Track)
    requires t.id in RawGenresById(tracks, genresOf) && RawGenresById(tracks, genresOf)[t.id] == genresOf(t)
    ensures RawGenresById(tracks + [Some(t)], genresOf) == RawGenresById(tracks, genresOf)
  {
    assert (tracks + [Some(t)])[..|tracks|] == tracks;
  }

  /** One track's label set, built raw genre by raw genre. */
  method TrackLabels(rawGenres: set<string>, nm: map<string, seq<string>>) returns (labels: set<string>)
    ensures labels == MappedLabels(nm, rawGenres)
  {
    labels := {};
    var rest := rawGenres;
    ghost var done: set<string> := {};
    while rest != {}
      invariant done + rest == rawGenres && done * rest == {}
      invariant labels == MappedLabels(nm, done)
      decreases rest
    {
      var rawGenre :| rawGenre in rest;
      var normalizedGenres := if rawGenre in nm then nm[rawGenre] else [];
      MappedLabelsStep(nm, done, rawGenre);
      for j: nat := 0 to |normalizedGenres|
        invariant labels == MappedLabels(nm, done) + Elems(normalizedGenres[..j])
      {
        ElemsStep(normalizedGenres, j);
        labels := labels + {normalizedGenres[j]};
      }
      assert normalizedGenres[..|normalizedGenres|] == normalizedGenres;
      done, rest := done + {rawGenre}, rest - {rawGenre};
    }
  }

  /** `for genre in normalized_genres_per_track: genre_counts[genre] += 1`. */
  method BumpAll(counts: map<string, nat>, keys: set<string>) returns (r: map<string, nat>)
    ensures r == Bump(counts, keys)
  {
    r := counts;
    var rest := keys;
    ghost var done: set<string> := {};
    while rest != {}
      invariant done + rest == keys && done * rest == {}
      invariant r == Bump(counts, done)
      decreases rest
    {
      var genre :| genre in rest;
      BumpStep(counts, done, genre);
      r := r[genre := Get(r, genre) + 1];
      done, rest := done + {genre}, rest - {genre};
    }
  }

  lemma BumpStep(counts: map<string, nat>, done: set<string>, g: string)
    requires g !in done
    ensures Bump(counts, done + {g}) == Bump(counts, done)[g := Get(Bump(counts, done), g) + 1]
  {
    var a := Bump(counts, done + {g});
    var b := Bump(counts, done)[g := Get(Bump(counts, done), g) + 1];
    assert a.Keys == b.Keys;
    forall x | x in a ensures a[x] == b[x] {
      assert Get(a, x) == a[x] && Get(b, x) == b[x];
    }
  }

  /** Step 3: the loop over `track_genres_map.items()`, visiting the ids in the order `ids`. */
  method CountGenres(m: map<string, set<string>>, nm: map<string, seq<string>>, ids: seq<string>)
    returns (genreCounts: map<string, nat>)
    requires forall k :: 0 <= k < |ids| ==> ids[k] in m
    ensures genreCounts == Counts(LabelsOf(m, nm), ids)
  {
    genreCounts := map[];
    for i: nat := 0 to |ids|
      invariant genreCounts == Counts(LabelsOf(m, nm), ids[..i])
    {
      assert ids[..i + 1][..i] == ids[..i];
      var rawGenres := m[ids[i]];
      var normalizedGenresPerTrack := TrackLabels(rawGenres, nm);
      genreCounts := BumpAll(genreCounts, normalizedGenresPerTrack);
    }
    assert ids[..|ids|] == ids;
  }

  // ----- ranking -----

  /** `key=lambda x: (-x[1], x[0])`: a larger count first, then the genre name in string order. */
  predicate ByRank(a: GenreCount, b: GenreCount)
  {
    a.count > b.count || (a.count == b.count && StrLe(a.genre, b.genre))
  }

  lemma ByRankPreorder()
    ensures TotalPreorder(ByRank)
  {
    forall a: GenreCount, b: GenreCount ensures ByRank(a, b) || ByRank(b, a) {
      StrLeTotal(a.genre, b.genre);
    }
    forall a: GenreCount, b: GenreCount, c: GenreCount | ByRank(a, b) && ByRank(b, c) ensures ByRank(a, c) {
      if a.count == b.count == c.count {
        StrLeTrans(a.genre, b.genre, c.genre);
      }
    }
  }

  /** The key ties no two different items. */
  lemma ByRankAntisym()
    ensures forall a, b :: ByRank(a, b) && ByRank(b, a) ==> a == b
  {
    forall a: GenreCount, b: GenreCount | ByRank(a, b) && ByRank(b, a) ensures a == b {
      StrLeAntisym(a.genre, b.genre);
    }
  }

  /** `genre_counts.items()`, the genres listed in the order `names`. */
  function Items(counts: map<string, nat>, names: seq<string>): seq<GenreCount>
  {
    if names == [] then []
    else
      var g := names[|names| - 1];
      Items(counts, names[..|names| - 1]) + [GenreCount(g, Get(counts, g))]
  }

  /** When no genre is listed twice, each item occurs once, and only the listed genres with their counts occur. */
  lemma {:induction false} ItemsOnce(counts: map<string, nat>, names: seq<string>, x: GenreCount)
    requires Distinct(names)
    ensures multiset(Items(counts, names))[x] == if x.genre in Elems(names) && x.count == Get(counts, x.genre) then 1 else 0
  {
    if names != [] {
      var n := |names| - 1;
      var front := names[..n];
      assert Distinct(front);
      ItemsOnce(counts, front, x);
      assert names[n] !in Elems(front);
      ElemsStep(names, n);
      assert names[..n + 1] == names;
    }
  }

  /** The ranked genres: `sorted(genre_counts.items(), key=...)`. */
  function RankGenres(counts: map<string, nat>, names: seq<string>): seq<GenreCount>
  {
    SortBy(Items(counts, names), ByRank)
  }

  /**
   * Every counted genre is ranked once with its count, and nothing else
   * is; a larger count comes first, and equal counts are in string order.
   */
  lemma RankGenresMeaning(counts: map<string, nat>, names: seq<string>)
    requires Distinct(names) && Elems(names) == counts.Keys
    ensures var r := RankGenres(counts, names);
      |r| == |counts| && Distinct(r) &&
      (forall x :: x in r <==> x.genre in counts && x.count == counts[x.genre]) &&
      forall i, j :: 0 <= i < j < |r| ==>
        r[i].count > r[j].count || (r[i].count == r[j].count && StrLe(r[i].genre, r[j].genre) && r[i].genre != r[j].genre)
  {
    var items := Items(counts, names);
    var r := RankGenres(counts, names);
    ByRankPreorder();
    SortByMeaning(items, ByRank, GenreCount("", 0));
    forall x: GenreCount ensures multiset(r)[x] == if x.genre in counts && x.count == counts[x.genre] then 1 else 0 {
      ItemsOnce(counts, names, x);
    }
    MultisetOnce(r);
    DistinctCard(names);
    assert |r| == |multiset(r)| == |multiset(items)| == |items|;
    assert |items| == |names| by {
      ItemsLength(counts, names);
    }
    forall i, j | 0 <= i < j < |r| && r[i].count == r[j].count ensures r[i].genre != r[j].genre {
      assert r[i] in multiset(r) && r[j] in multiset(r);
    }
  }

  lemma {:induction false} ItemsLength(counts: map<string, nat>, names: seq<string>)
    ensures |Items(counts, names)| == |names|
  {
    if names != [] {
      ItemsLength(counts, names[..|names| - 1]);
    }
  }

  /** The ranking does not depend on the order `genre_counts` lists its genres in. */
  lemma RankOrderFree(counts: map<string, nat>, a: seq<string>, b: seq<string>)
    requires Distinct(a) && Distinct(b) && Elems(a) == Elems(b)
    ensures RankGenres(counts, a) == RankGenres(counts, b)
  {
    ByRankPreorder();
    ByRankAntisym();
    SortByMeaning(Items(counts, a), ByRank, GenreCount("", 0));
    SortByMeaning(Items(counts, b), ByRank, GenreCount("", 0));
    forall x: GenreCount ensures multiset(Items(counts, a))[x] == multiset(Items(counts, b))[x] {
      ItemsOnce(counts, a, x);
      ItemsOnce(counts, b, x);
    }
    assert multiset(Items(counts, a)) == multiset(Items(counts, b));
    SortedUnique(RankGenres(counts, a), RankGenres(counts, b), ByRank);
  }

  // ----- the whole run -----

  /** What `rank_playlist_genres` ends with: the cache after the pre-load, the ranked genres and `len(genre_counts)`. */
  datatype Ranking = Ranking(artistCache: Cache, ranked: seq<GenreCount>, uniqueGenres: nat)

  /** Step 1 over the playlist, with the pre-loaded cache. */
  function PlaylistRaws(tracks: seq<Item>, cache: Cache, fetch: seq<string> -> seq<Option<Artist>>): map<string, set<string>>
  {
    RawGenresById(tracks, TrackGenresOf(cache, fetch))
  }

  /** Steps 2 and 3: the labels each recorded track is counted under. */
  function PlaylistLabels(m: map<string, set<string>>): string -> set<string>
  {
    LabelsOf(m, NormalizationMap(AllRawGenres(m)))
  }

  /** Step 3 over the recorded tracks, visited in dictionary order. */
  function GenreCounts(m: map<string, set<string>>, listOf: set<string> -> seq<string>): map<string, nat>
  {
    Counts(PlaylistLabels(m), listOf(m.Keys))
  }

  function RankOf(cache: Cache, tracks: seq<Item>, listOf: set<string> -> seq<string>,
                  many: seq<string> -> Option<seq<Option<Artist>>>, table: MappingTable,
                  countryOf: string -> Option<string>, fetch: seq<string> -> seq<Option<Artist>>): Ranking
  {
    var artistCache := Preloaded(cache, tracks, listOf, many, table, countryOf);
    var counts := GenreCounts(PlaylistRaws(tracks, artistCache, fetch), listOf);
    Ranking(artistCache, RankGenres(counts, listOf(counts.Keys)), |counts|)
  }

  /** `rank_playlist_genres` over the playlist's items, without the printing. */
  method RankPlaylistGenres(cache: Cache, tracks: seq<Item>, listOf: set<string> -> seq<string>,
                            many: seq<string> -> Option<seq<Option<Artist>>>, table: MappingTable,
                            countryOf: string -> Option<string>, fetch: seq<string> -> seq<Option<Artist>>)
    returns (r: Ranking)
    requires Enumerates(listOf)
    ensures r == RankOf(cache, tracks, listOf, many, table, countryOf, fetch)
  {
    var artistCache := PreloadArtists(cache, tracks, listOf, many, table, countryOf);
    var trackGenresMap := CollectRawGenres(tracks, artistCache, fetch);
    var allRawGenres := CollectAllRaw(trackGenresMap);
    var normalizationMap := BuildNormalizationMap(allRawGenres);
    var ids := listOf(trackGenresMap.Keys);
    assert Elems(ids) == trackGenresMap.Keys;
    var genreCounts := CountGenres(trackGenresMap, normalizationMap, ids);
    var sortedGenres := RankGenres(genreCounts, listOf(genreCounts.Keys));
    r := Ranking(artistCache, sortedGenres, |genreCounts|);
  }

  /**
   * A genre's count is the number of playlist tracks, by id, one of whose
   * raw genres normalizes to it, so it never exceeds the number of tracks;
   * and the genres counted are exactly those some track has.
   */
  lemma GenreCountsMeaning(tracks: seq<Item>, cache: Cache, fetch: seq<string> -> seq<Option<Artist>>,
                           listOf: set<string> -> seq<string>, g: string)
    requires Enumerates(listOf) && ListsOnce(listOf)
    ensures var m := PlaylistRaws(tracks, cache, fetch);
      var with := set id | id in m && g in PlaylistLabels(m)(id);
      m.Keys == TrackIdSet(tracks) &&
      Get(GenreCounts(m, listOf), g) == |with| <= |TrackIdSet(tracks)| &&
      (g in GenreCounts(m, listOf) <==> with != {})
  {
    var m := PlaylistRaws(tracks, cache, fetch);
    RawGenresByIdKeys(tracks, TrackGenresOf(cache, fetch));
    CountsOfKeys(PlaylistLabels(m), m.Keys, listOf, g);
  }

  /** Counting over a dictionary's keys, in its order. */
  lemma CountsOfKeys(labelsOf: string -> set<string>, keys: set<string>, listOf: set<string> -> seq<string>, g: string)
    requires Enumerates(listOf) && ListsOnce(listOf)
    ensures var with := set id | id in keys && g in labelsOf(id);
      Get(Counts(labelsOf, listOf(keys)), g) == |with| <= |keys| &&
      (g in Counts(labelsOf, listOf(keys)) <==> with != {})
  {
    var ids := listOf(keys);
    assert Distinct(ids) && Elems(ids) == keys;
    CountsMeaning(labelsOf, ids, g);
    assert TracksWith(labelsOf, ids, g) == set id | id in keys && g in labelsOf(id);
    SubsetCard(TracksWith(labelsOf, ids, g), keys);
  }

  /**
   * The run: the cache is the pre-loaded one; every counted genre is ranked
   * once with its count, larger counts first and equal counts in string
   * order; and the number of unique genres is the number ranked.
   */
  lemma RankingMeaning(cache: Cache, tracks: seq<Item>, listOf: set<string> -> seq<string>,
                       many: seq<string> -> Option<seq<Option<Artist>>>, table: MappingTable,
                       countryOf: string -> Option<string>, fetch: seq<string> -> seq<Option<Artist>>)
    requires Enumerates(listOf) && ListsOnce(listOf)
    ensures var r := RankOf(cache, tracks, listOf, many, table, countryOf, fetch);
      var counts := GenreCounts(PlaylistRaws(tracks, r.artistCache, fetch), listOf);
      r.artistCache == Preloaded(cache, tracks, listOf, many, table, countryOf) &&
      r.uniqueGenres == |r.ranked| && Distinct(r.ranked) &&
      (forall x :: x in r.ranked <==> x.genre in counts && x.count == counts[x.genre]) &&
      forall i, j :: 0 <= i < j < |r.ranked| ==>
        r.ranked[i].count > r.ranked[j].count ||
        (r.ranked[i].count == r.ranked[j].count && StrLe(r.ranked[i].genre, r.ranked[j].genre) &&
         r.ranked[i].genre != r.ranked[j].genre)
  {
    var artistCache := Preloaded(cache, tracks, listOf, many, table, countryOf);
    var counts := GenreCounts(PlaylistRaws(tracks, artistCache, fetch), listOf);
    RankGenresMeaning(counts, listOf(counts.Keys));
  }
}
