/**
 * Genre_Lister.py, `list_playlist_genres`: every track id gets the raw
 * genres `get_track_genres` gives it from the cache, each distinct raw
 * genre is normalized once, and the labels of all of them are collected
 * into one set, which is listed in string order with its size. The cache
 * is only read. The order dictionary iteration and `list(set)` give is
 * `listOf`.
 */
module GenreLister {
  import opened Wrappers
  import opened Text
  import opened Lists
  import opened Records
  import opened Sorting
  import opened GenreNormalize
  import opened TrackBuckets

  /** Step 3's set: the labels of the recorded track ids `ids`, visited in turn. */
  function LabelsUnion(m: map<string, set<string>>, nm: map<string, seq<string>>, ids: seq<string>): set<string>
  {
    if ids == [] then {}
    else LabelsUnion(m, nm, ids[..|ids| - 1]) + MappedLabels(nm, RawOf(m, ids[|ids| - 1]))
  }

  /** A label is collected iff one of the visited tracks has it. */
  lemma {:induction false} LabelsUnionMember(m: map<string, set<string>>, nm: map<string, seq<string>>, ids: seq<string>, g: string)
    ensures g in LabelsUnion(m, nm, ids) <==> exists k :: 0 <= k < |ids| && g in MappedLabels(nm, RawOf(m, ids[k]))
  {
    if ids != [] {
      var front := ids[..|ids| - 1];
      LabelsUnionMember(m, nm, front, g);
      assert forall k :: 0 <= k < |front| ==> front[k] == ids[k];
    }
  }

  /** `unique_normalized_genres.update(...)` over the raw genres of one track. */
  method AddLabels(u: set<string>, rawGenres: set<string>, nm: map<string, seq<string>>) returns (u': set<string>)
    ensures u' == u + MappedLabels(nm, rawGenres)
  {
    u' := u;
    var rest := rawGenres;
    ghost var done: set<string> := {};
    assert MappedLabels(nm, done) == {};
    while rest != {}
      invariant done + rest == rawGenres
      invariant u' == u + MappedLabels(nm, done)
      decreases rest
    {
      var rawGenre :| rawGenre in rest;
      var normalizedGenres := if rawGenre in nm then nm[rawGenre] else [];
      u' := u' + Elems(normalizedGenres);
      MappedLabelsStep(nm, done, rawGenre);
      done := done + {rawGenre};
      rest := rest - {rawGenre};
    }
  }

  /** Step 3: the loop over `track_genres_map.values()`, visited in the order of `ids`. */
  method CollectLabels(m: map<string, set<string>>, nm: map<string, seq<string>>, ids: seq<string>)
    returns (uniqueNormalizedGenres: set<string>)
    requires forall k :: 0 <= k < |ids| ==> ids[k] in m
    ensures uniqueNormalizedGenres == LabelsUnion(m, nm, ids)
  {
    uniqueNormalizedGenres := {};
    for i: nat := 0 to |ids|
      invariant uniqueNormalizedGenres == LabelsUnion(m, nm, ids[..i])
    {
      assert ids[..i + 1][..i] == ids[..i];
      uniqueNormalizedGenres := AddLabels(uniqueNormalizedGenres, m[ids[i]], nm);
    }
    assert ids[..|ids|] == ids;
  }

  /** What the listing prints: the genres in `sorted` order, and their number. */
  datatype GenreListing = GenreListing(genres: seq<string>, total: nat)

  /** Every label of every track's raw genres. */
  function UniqueGenres(cache: Cache, tracks: seq<Item>, listOf: set<string> -> seq<string>,
                        fetch: seq<string> -> seq<Option<Artist>>): set<string>
  {
    var m := RawGenresById(tracks, TrackGenresOf(cache, fetch));
    LabelsUnion(m, NormalizationMap(AllRawGenres(m)), listOf(m.Keys))
  }

  function ListingOf(cache: Cache, tracks: seq<Item>, listOf: set<string> -> seq<string>,
                     fetch: seq<string> -> seq<Option<Artist>>): GenreListing
  {
    var u := UniqueGenres(cache, tracks, listOf, fetch);
    GenreListing(SortBy(listOf(u), StrLe), |u|)
  }

  /** `list_playlist_genres` over the playlist's items, without the printing. */
  method ListPlaylistGenres(cache: Cache, tracks: seq<Item>, listOf: set<string> -> seq<string>,
                            fetch: seq<string> -> seq<Option<Artist>>)
    returns (r: GenreListing)
    requires Enumerates(listOf)
    ensures r == ListingOf(cache, tracks, listOf, fetch)
  {
    var trackGenresMap := CollectRawGenres(tracks, cache, fetch);
    var allRawGenres := CollectAllRaw(trackGenresMap);
    var normalizationMap := BuildNormalizationMap(allRawGenres);
    var ids := listOf(trackGenresMap.Keys);
    assert Elems(ids) == trackGenresMap.Keys;
    var uniqueNormalizedGenres := CollectLabels(trackGenresMap, normalizationMap, ids);
    r := GenreListing(SortBy(listOf(uniqueNormalizedGenres), StrLe), |uniqueNormalizedGenres|);
  }

  lemma StrLePreorder()
    ensures TotalPreorder(StrLe)
  {
    forall a, b ensures StrLe(a, b) || StrLe(b, a) {
      StrLeTotal(a, b);
    }
    forall a, b, c | StrLe(a, b) && StrLe(b, c) ensures StrLe(a, c) {
      StrLeTrans(a, b, c);
    }
  }

  /**
   * The genres are listed once each, in strictly ascending string order,
   * they are exactly the collected set, and the total printed is their
   * number.
   */
  lemma ListingSorted(cache: Cache, tracks: seq<Item>, listOf: set<string> -> seq<string>,
                      fetch: seq<string> -> seq<Option<Artist>>)
    requires Enumerates(listOf) && ListsOnce(listOf)
    ensures var r := ListingOf(cache, tracks, listOf, fetch);
      var u := UniqueGenres(cache, tracks, listOf, fetch);
      Elems(r.genres) == u && r.total == |r.genres| &&
      forall i, j :: 0 <= i < j < |r.genres| ==> StrLe(r.genres[i], r.genres[j]) && r.genres[i] != r.genres[j]
  {
    var u := UniqueGenres(cache, tracks, listOf, fetch);
    var l := listOf(u);
    var s := SortBy(l, StrLe);
    StrLePreorder();
    SortByMeaning(l, StrLe, "");
    forall x ensures multiset(s)[x] <= 1 && (x in s <==> x in l) {
      DistinctOnce(l, x);
    }
    MultisetOnce(s);
    DistinctCard(l);
    assert |s| == |multiset(s)| == |multiset(l)| == |l|;
  }

  /** With every raw genre normalized in `nm`, a label is collected iff a raw genre of a visited track gives it. */
  lemma LabelsUnionOf(m: map<string, set<string>>, nm: map<string, seq<string>>, ids: seq<string>, g: string)
    requires Elems(ids) == m.Keys
    requires forall id :: id in m ==> m[id] <= nm.Keys
    requires forall r :: r in nm ==> nm[r] == Normalized(r)
    ensures g in LabelsUnion(m, nm, ids) <==> exists id :: id in m && exists raw :: raw in m[id] && g in Normalized(raw)
  {
    LabelsUnionMember(m, nm, ids, g);
    if g in LabelsUnion(m, nm, ids) {
      var i :| 0 <= i < |ids| && g in MappedLabels(nm, RawOf(m, ids[i]));
      MappedLabelsOf(nm, RawOf(m, ids[i]), g, Normalized);
    }
    if exists id :: id in m && exists raw :: raw in m[id] && g in Normalized(raw) {
      var id :| id in m && exists raw :: raw in m[id] && g in Normalized(raw);
      var i :| 0 <= i < |ids| && ids[i] == id;
      MappedLabelsOf(nm, RawOf(m, ids[i]), g, Normalized);
    }
  }

  /** Step 1 records every non-null track's id with its genres, and nothing else. */
  lemma Recorded(tracks: seq<Item>, genresOf: Track -> set<string>)
    requires IdConsistent(tracks, genresOf)
    ensures var m := RawGenresById(tracks, genresOf);
      m.Keys == TrackIdSet(tracks) &&
      forall k :: 0 <= k < |tracks| && tracks[k].Some? ==> m[tracks[k].value.id] == genresOf(tracks[k].value)
  {
    RawGenresByIdKeys(tracks, genresOf);
    forall k | 0 <= k < |tracks| && tracks[k].Some? {
      RawGenresByIdHas(tracks, genresOf, k);
    }
  }

  /** Some recorded track id has a raw genre giving `g` iff some non-null track has one. */
  lemma RecordedHas(tracks: seq<Item>, genresOf: Track -> set<string>, m: map<string, set<string>>, g: string)
    requires m.Keys == TrackIdSet(tracks)
    requires forall k :: 0 <= k < |tracks| && tracks[k].Some? ==> m[tracks[k].value.id] == genresOf(tracks[k].value)
    ensures (exists id :: id in m && exists raw :: raw in m[id] && g in Normalized(raw)) <==>
      exists k :: 0 <= k < |tracks| && tracks[k].Some? &&
        exists raw :: raw in genresOf(tracks[k].value) && g in Normalized(raw)
  {
    if exists id :: id in m && exists raw :: raw in m[id] && g in Normalized(raw) {
      var id :| id in m && exists raw :: raw in m[id] && g in Normalized(raw);
      var k :| 0 <= k < |tracks| && tracks[k].Some? && tracks[k].value.id == id;
    }
    if exists k :: 0 <= k < |tracks| && tracks[k].Some? &&
         exists raw :: raw in genresOf(tracks[k].value) && g in Normalized(raw) {
      var k :| 0 <= k < |tracks| && tracks[k].Some? &&
        exists raw :: raw in genresOf(tracks[k].value) && g in Normalized(raw);
      assert tracks[k].value.id in m;
    }
  }

  /**
   * When tracks with the same id credit the same artists' genres, a genre
   * is listed iff some non-null track has a raw genre which `normalize_genre`
   * turns into it.
   */
  lemma ListingMember(cache: Cache, tracks: seq<Item>, listOf: set<string> -> seq<string>,
                      fetch: seq<string> -> seq<Option<Artist>>, g: string)
    requires Enumerates(listOf) && ListsOnce(listOf)
    requires IdConsistent(tracks, TrackGenresOf(cache, fetch))
    ensures g in ListingOf(cache, tracks, listOf, fetch).genres <==>
      exists k :: 0 <= k < |tracks| && tracks[k].Some? &&
        exists raw :: raw in TrackGenresOf(cache, fetch)(tracks[k].value) && g in Normalized(raw)
  {
    ListingSorted(cache, tracks, listOf, fetch);
    var genresOf := TrackGenresOf(cache, fetch);
    var m := RawGenresById(tracks, genresOf);
    var nm := NormalizationMap(AllRawGenres(m));
    assert nm == Tabulate(AllRawGenres(m), Normalized);
    LabelsUnionOf(m, nm, listOf(m.Keys), g);
    Recorded(tracks, genresOf);
    RecordedHas(tracks, genresOf, m, g);
  }
}
