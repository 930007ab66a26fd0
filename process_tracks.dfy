/**
 * `process_tracks_batch_optimized`, which files every track of a playlist
 * under its genres. model/Playlist_Tools.py files each track under the raw
 * genres `get_track_genres` gives it, walking the list in slices of
 * `batch_size`; Playlist_Tools.py first collects the raw genres of every
 * track id, normalizes each distinct raw genre once, and files each track
 * under the normalized labels of its raw genres.
 */
module TrackBuckets {
  import opened Wrappers
  import opened Lists
  import opened Records
  import opened GenreNormalize
  import opened TrackTagging
  import opened Bucketing

  /** The genres `get_track_genres` gives a non-null track. */
  function TrackGenresOf(cache: Cache, fetch: seq<string> -> seq<Option<Artist>>): Track -> set<string>
  {
    (t: Track) => TrackGenres(Some(t), cache, fetch)
  }

  // ----- model/Playlist_Tools.py: raw genres, in slices -----

  /** One list entry: skip a null track, otherwise add its id under each of its genres. */
  method FileItem(b: Buckets, tracks: seq<Item>, n: nat, cache: Cache, fetch: seq<string> -> seq<Option<Artist>>,
                  ghost genresOf: Track -> set<string>)
    returns (r: Buckets)
    requires genresOf == TrackGenresOf(cache, fetch)
    requires n < |tracks| && b == Bucketed(tracks[..n], genresOf)
    ensures r == Bucketed(tracks[..n + 1], genresOf)
  {
    BucketedStep(tracks, n, genresOf);
    match tracks[n] {
      case None =>
        r := b;
      case Some(t) =>
        var trackGenres := GetTrackGenres(tracks[n], cache, fetch);
        r := AddTrackToBuckets(b, trackGenres, t.id);
    }
  }

  /** The tracks of one slice `tracks[i:end]`, in order. */
  method FileBatch(b: Buckets, tracks: seq<Item>, i: nat, end: nat, cache: Cache, fetch: seq<string> -> seq<Option<Artist>>,
                   ghost genresOf: Track -> set<string>)
    returns (r: Buckets)
    requires genresOf == TrackGenresOf(cache, fetch)
    requires i <= end <= |tracks| && b == Bucketed(tracks[..i], genresOf)
    ensures r == Bucketed(tracks[..end], genresOf)
  {
    r := b;
    for n: nat := i to end
      invariant r == Bucketed(tracks[..n], genresOf)
    {
      r := FileItem(r, tracks, n, cache, fetch, genresOf);
    }
  }

  /**
   * The slices `tracks[i:i + batch_size]` are walked in order, so the
   * buckets do not depend on the batch size; a zero step makes `range`
   * raise and a negative one gives no slices at all.
   */
  method ProcessTracksBatchOptimized(tracks: seq<Item>, cache: Cache, fetch: seq<string> -> seq<Option<Artist>>, batchSize: int)
    returns (r: Result<Buckets>)
    ensures batchSize == 0 ==> r == Err("range() arg 3 must not be zero")
    ensures batchSize < 0 ==> r == Ok(map[])
    ensures batchSize > 0 ==> r == Ok(Bucketed(tracks, TrackGenresOf(cache, fetch)))
  {
    if batchSize == 0 {
      return Err("range() arg 3 must not be zero");
    }
    var genreTracks: Buckets := map[];
    if batchSize < 0 {
      return Ok(genreTracks);
    }
    var i := 0;
    while i < |tracks|
      invariant 0 <= i <= |tracks|
      invariant genreTracks == Bucketed(tracks[..i], TrackGenresOf(cache, fetch))
    {
      var end := if i + batchSize < |tracks| then i + batchSize else |tracks|;
      genreTracks := FileBatch(genreTracks, tracks, i, end, cache, fetch, TrackGenresOf(cache, fetch));
      i := end;
    }
    assert tracks[..|tracks|] == tracks;
    return Ok(genreTracks);
  }

  // ----- Playlist_Tools.py: normalized genres, in three passes -----

  /** Step 1, `track_genres_map`: each non-null track's id to its raw genres; a later track with the same id wins. */
  function RawGenresById(tracks: seq<Item>, genresOf: Track -> set<string>): map<string, set<string>>
  {
    if tracks == [] then map[]
    else
      var m := RawGenresById(tracks[..|tracks| - 1], genresOf);
      match tracks[|tracks| - 1]
        case None => m
        case Some(t) => m[t.id := genresOf(t)]
  }

  lemma RawGenresByIdStep(tracks: seq<Item>, n: nat, genresOf: Track -> set<string>)
    requires n < |tracks|
    ensures RawGenresById(tracks[..n + 1], genresOf) ==
      match tracks[n]
        case None => RawGenresById(tracks[..n], genresOf)
        case Some(t) => RawGenresById(tracks[..n], genresOf)[t.id := genresOf(t)]
  {
    assert tracks[..n + 1][..n] == tracks[..n];
  }

  /** `track_genres_map.get(track_id, [])`. */
  function RawOf(m: map<string, set<string>>, id: string): set<string>
  {
    if id in m then m[id] else {}
  }

  /** The raw genres recorded for the ids in `ids`. */
  function RawsOf(m: map<string, set<string>>, ids: set<string>): set<string>
  {
    set id, g | id in ids && id in m && g in m[id] :: g
  }

  /** Step 2, `all_raw_genres`: every raw genre of every recorded track. */
  function AllRawGenres(m: map<string, set<string>>): (r: set<string>)
    ensures forall id :: id in m ==> m[id] <= r
  {
    RawsOf(m, m.Keys)
  }

  /** `{genre: norm(genre) for genre in raws}`. */
  function Tabulate(raws: set<string>, norm: string -> seq<string>): (r: map<string, seq<string>>)
    ensures r.Keys == raws
  {
    map g | g in raws :: norm(g)
  }

  /** Step 2, `normalization_map`: each raw genre to `normalize_genre` of it. */
  function NormalizationMap(raws: set<string>): (r: map<string, seq<string>>)
    ensures r.Keys == raws
  {
    Tabulate(raws, Normalized)
  }

  /** The labels `normalization_map.get(raw_genre, [])` gives the raw genres `raws`. */
  function MappedLabels(nm: map<string, seq<string>>, raws: set<string>): set<string>
  {
    set raw, ng | raw in raws && raw in nm && ng in nm[raw] :: ng
  }

  /** Step 3, the labels a track is filed under: those of the raw genres recorded for its id. */
  function NormalizedGenresOf(m: map<string, set<string>>, nm: map<string, seq<string>>): Track -> set<string>
  {
    (t: Track) => MappedLabels(nm, RawOf(m, t.id))
  }

  /** What the three passes compute. */
  function NormalizedBuckets(tracks: seq<Item>, genresOf: Track -> set<string>): Buckets
  {
    var m := RawGenresById(tracks, genresOf);
    Bucketed(tracks, NormalizedGenresOf(m, NormalizationMap(AllRawGenres(m))))
  }

  /** Step 1. */
  method CollectRawGenres(tracks: seq<Item>, cache: Cache, fetch: seq<string> -> seq<Option<Artist>>)
    returns (trackGenresMap: map<string, set<string>>)
    ensures trackGenresMap == RawGenresById(tracks, TrackGenresOf(cache, fetch))
  {
    trackGenresMap := map[];
    for k: nat := 0 to |tracks|
      invariant trackGenresMap == RawGenresById(tracks[..k], TrackGenresOf(cache, fetch))
    {
      RawGenresByIdStep(tracks, k, TrackGenresOf(cache, fetch));
      if tracks[k].Some? {
        var rawGenres := GetTrackGenres(tracks[k], cache, fetch);
        trackGenresMap := trackGenresMap[tracks[k].value.id := rawGenres];
      }
    }
    assert tracks[..|tracks|] == tracks;
  }

  lemma RawsOfStep(m: map<string, set<string>>, ids: set<string>, id: string)
    requires id in m
    ensures RawsOf(m, ids + {id}) == RawsOf(m, ids) + m[id]
  {
  }

  /** Step 2, first half: the union of the recorded genre collections. */
  method CollectAllRaw(m: map<string, set<string>>) returns (allRawGenres: set<string>)
    ensures allRawGenres == AllRawGenres(m)
  {
    allRawGenres := {};
    var rest := m.Keys;
    ghost var done: set<string> := {};
    while rest != {}
      invariant done + rest == m.Keys
      invariant allRawGenres == RawsOf(m, done)
      decreases rest
    {
      var id :| id in rest;
      RawsOfStep(m, done, id);
      allRawGenres := allRawGenres + m[id];
      done := done + {id};
      rest := rest - {id};
    }
  }

  /** `nm` holds `norm` of exactly the raw genres in `done`. */
  predicate TabulatedOn(nm: map<string, seq<string>>, done: set<string>, norm: string -> seq<string>)
  {
    nm.Keys == done && forall g :: g in nm ==> nm[g] == norm(g)
  }

  lemma TabulatedOnIs(nm: map<string, seq<string>>, raws: set<string>, norm: string -> seq<string>)
    requires TabulatedOn(nm, raws, norm)
    ensures nm == Tabulate(raws, norm)
  {
    var s := Tabulate(raws, norm);
    forall g | g in nm ensures nm[g] == s[g] {
    }
    assert nm.Keys == s.Keys;
  }

  method AddNormalized(nm: map<string, seq<string>>, genre: string, ghost done: set<string>) returns (nm': map<string, seq<string>>)
    requires TabulatedOn(nm, done, Normalized)
    ensures TabulatedOn(nm', done + {genre}, Normalized)
  {
    var normalized := NormalizeGenre(genre);
    TabulatedOnStep(nm, done, genre, normalized, Normalized);
    nm' := nm[genre := normalized];
  }

  lemma TabulatedOnStep(nm: map<string, seq<string>>, done: set<string>, genre: string, normalized: seq<string>, norm: string -> seq<string>)
    requires TabulatedOn(nm, done, norm) && normalized == norm(genre)
    ensures TabulatedOn(nm[genre := normalized], done + {genre}, norm)
  {
    var u := nm[genre := normalized];
    forall g | g in u ensures u[g] == norm(g) {
      if g != genre {
        assert u[g] == nm[g];
      }
    }
  }

  /** Step 2, second half: each distinct raw genre is normalized once. */
  method BuildNormalizationMap(allRawGenres: set<string>) returns (normalizationMap: map<string, seq<string>>)
    ensures normalizationMap == NormalizationMap(allRawGenres)
  {
    normalizationMap := map[];
    var rest := allRawGenres;
    ghost var done: set<string> := {};
    while rest != {}
      invariant done + rest == allRawGenres
      invariant TabulatedOn(normalizationMap, done, Normalized)
      decreases rest
    {
      var genre :| genre in rest;
      normalizationMap := AddNormalized(normalizationMap, genre, done);
      done := done + {genre};
      rest := rest - {genre};
    }
    TabulatedOnIs(normalizationMap, done, Normalized);
  }

  lemma MappedLabelsStep(nm: map<string, seq<string>>, raws: set<string>, raw: string)
    ensures MappedLabels(nm, raws + {raw}) == MappedLabels(nm, raws) + Elems(if raw in nm then nm[raw] else [])
  {
    var l := if raw in nm then nm[raw] else [];
    forall ng | ng in Elems(l) ensures ng in MappedLabels(nm, raws + {raw}) {
      assert raw in nm && ng in nm[raw];
    }
  }

  /** Step 3 for one track: every label of every raw genre recorded for its id. */
  method FileNormalized(b: Buckets, id: string, m: map<string, set<string>>, nm: map<string, seq<string>>) returns (r: Buckets)
    ensures r == AddToAll(b, MappedLabels(nm, RawOf(m, id)), id)
  {
    var rawGenres := if id in m then m[id] else {};
    r := b;
    AddToNone(b, id);
    var rest := rawGenres;
    ghost var done: set<string> := {};
    assert MappedLabels(nm, done) == {};
    while rest != {}
      invariant done + rest == rawGenres
      invariant r == AddToAll(b, MappedLabels(nm, done), id)
      decreases rest
    {
      var rawGenre :| rawGenre in rest;
      var normalizedGenres := if rawGenre in nm then nm[rawGenre] else [];
      r := AddTrackToEach(r, normalizedGenres, id);
      AddToAllTwice(b, MappedLabels(nm, done), Elems(normalizedGenres), id);
      MappedLabelsStep(nm, done, rawGenre);
      done := done + {rawGenre};
      rest := rest - {rawGenre};
    }
  }

  method FileNormalizedItem(b: Buckets, tracks: seq<Item>, n: nat, m: map<string, set<string>>, nm: map<string, seq<string>>)
    returns (r: Buckets)
    requires n < |tracks| && b == Bucketed(tracks[..n], NormalizedGenresOf(m, nm))
    ensures r == Bucketed(tracks[..n + 1], NormalizedGenresOf(m, nm))
  {
    BucketedStep(tracks, n, NormalizedGenresOf(m, nm));
    match tracks[n] {
      case None =>
        r := b;
      case Some(t) =>
        r := FileNormalized(b, t.id, m, nm);
    }
  }

  /** Playlist_Tools.py's `process_tracks_batch_optimized`: the three passes. */
  method ProcessTracksNormalized(tracks: seq<Item>, cache: Cache, fetch: seq<string> -> seq<Option<Artist>>)
    returns (genreTracks: Buckets)
    ensures genreTracks == NormalizedBuckets(tracks, TrackGenresOf(cache, fetch))
  {
    var trackGenresMap := CollectRawGenres(tracks, cache, fetch);
    var allRawGenres := CollectAllRaw(trackGenresMap);
    var normalizationMap := BuildNormalizationMap(allRawGenres);
    genreTracks := map[];
    for k: nat := 0 to |tracks|
      invariant genreTracks == Bucketed(tracks[..k], NormalizedGenresOf(trackGenresMap, normalizationMap))
    {
      genreTracks := FileNormalizedItem(genreTracks, tracks, k, trackGenresMap, normalizationMap);
    }
    assert tracks[..|tracks|] == tracks;
  }

  // ----- what the buckets hold -----

  /** Tracks with the same id have the same genres (they are the same catalog track). */
  predicate IdConsistent(tracks: seq<Item>, genresOf: Track -> set<string>)
  {
    forall k, l :: 0 <= k < |tracks| && 0 <= l < |tracks| && tracks[k].Some? && tracks[l].Some? &&
                   tracks[k].value.id == tracks[l].value.id ==>
      genresOf(tracks[k].value) == genresOf(tracks[l].value)
  }

  /** Step 1 records every listed track id, with the genres of the last track carrying it. */
  lemma {:induction false} RawGenresByIdHas(tracks: seq<Item>, genresOf: Track -> set<string>, k: nat)
    requires k < |tracks| && tracks[k].Some? && IdConsistent(tracks, genresOf)
    ensures RawOf(RawGenresById(tracks, genresOf), tracks[k].value.id) == genresOf(tracks[k].value)
    decreases |tracks|
  {
    var front := tracks[..|tracks| - 1];
    var t := tracks[k].value;
    if k < |tracks| - 1 {
      assert front[k] == tracks[k];
      assert IdConsistent(front, genresOf) by {
        forall i, j | 0 <= i < |front| && 0 <= j < |front| && front[i].Some? && front[j].Some? &&
          front[i].value.id == front[j].value.id
          ensures genresOf(front[i].value) == genresOf(front[j].value)
        {
          assert front[i] == tracks[i] && front[j] == tracks[j];
        }
      }
      RawGenresByIdHas(front, genresOf, k);
    }
  }

  /** The labels of a collection of raw genres are the labels of its members. */
  lemma MappedLabelsOf(nm: map<string, seq<string>>, raws: set<string>, g: string, norm: string -> seq<string>)
    requires raws <= nm.Keys && forall r :: r in raws ==> nm[r] == norm(r)
    ensures g in MappedLabels(nm, raws) <==> exists r :: r in raws && g in norm(r)
  {
    if exists r :: r in raws && g in norm(r) {
      var r :| r in raws && g in norm(r);
      assert g in nm[r];
    }
  }

  lemma TabulatedGenresOfTrack(tracks: seq<Item>, genresOf: Track -> set<string>, k: nat, g: string, norm: string -> seq<string>)
    requires k < |tracks| && tracks[k].Some? && IdConsistent(tracks, genresOf)
    ensures var m := RawGenresById(tracks, genresOf);
      g in NormalizedGenresOf(m, Tabulate(AllRawGenres(m), norm))(tracks[k].value) <==>
      exists r :: r in genresOf(tracks[k].value) && g in norm(r)
  {
    var m := RawGenresById(tracks, genresOf);
    var nm := Tabulate(AllRawGenres(m), norm);
    var t := tracks[k].value;
    RawGenresByIdHas(tracks, genresOf, k);
    assert RawOf(m, t.id) == genresOf(t);
    assert RawOf(m, t.id) <= AllRawGenres(m);
    MappedLabelsOf(nm, RawOf(m, t.id), g, norm);
  }

  /**
   * When tracks with the same id have the same genres, a track id is in the
   * bucket of `g` iff some non-null track with that id has a raw genre one
   * of whose normalized labels is `g`.
   */
  lemma NormalizedMember(tracks: seq<Item>, genresOf: Track -> set<string>, g: string, id: string)
    requires IdConsistent(tracks, genresOf)
    ensures var b := NormalizedBuckets(tracks, genresOf);
      (g in b && id in b[g]) <==>
      exists k :: 0 <= k < |tracks| && tracks[k].Some? && tracks[k].value.id == id &&
        exists r :: r in genresOf(tracks[k].value) && g in Normalized(r)
  {
    var m := RawGenresById(tracks, genresOf);
    var f := NormalizedGenresOf(m, Tabulate(AllRawGenres(m), Normalized));
    BucketedMember(tracks, f, g, id);
    forall k | 0 <= k < |tracks| && tracks[k].Some?
      ensures g in f(tracks[k].value) <==> exists r :: r in genresOf(tracks[k].value) && g in Normalized(r)
    {
      TabulatedGenresOfTrack(tracks, genresOf, k, g, Normalized);
    }
  }

  /** Step 1 records exactly the ids of the non-null tracks. */
  lemma {:induction false} RawGenresByIdKeys(tracks: seq<Item>, genresOf: Track -> set<string>)
    ensures RawGenresById(tracks, genresOf).Keys == TrackIdSet(tracks)
  {
    if tracks != [] {
      var n := |tracks| - 1;
      var front := tracks[..n];
      RawGenresByIdKeys(front, genresOf);
      forall t | t in TrackIdSet(tracks) ensures t in TrackIdSet(front) || (tracks[n].Some? && t == tracks[n].value.id) {
        var k :| 0 <= k < |tracks| && tracks[k].Some? && tracks[k].value.id == t;
        if k < n {
          assert front[k] == tracks[k];
        }
      }
      forall t | t in TrackIdSet(front) ensures t in TrackIdSet(tracks) {
        var k :| 0 <= k < |front| && front[k].Some? && front[k].value.id == t;
        assert tracks[k] == front[k];
      }
    }
  }
}
