/**
 * The playlist-addition pass that Fix_Custom_Genres.py
 * (`redo_playlist_additions`) and Custom_Genre_Updater.py
 * (`update_playlists_with_custom_genres`) share line for line: the tracks of
 * the source playlist are grouped by credited artist; every artist of the
 * custom-genres file with a non-empty genre list and tracks in the source
 * playlist has its genres normalized; the playlists named like one of those
 * labels receive the artist's tracks they lack, in slices of 50; the tracks
 * are also gathered per label, and a label of at least 100 tracks whose
 * title-cased name is not an existing playlist gets a new playlist.
 *
 * The Spotify calls are recorded in order, as in PlaylistWrites; which of
 * them raise, the tracks a playlist holds, the id a new playlist gets and
 * the order a set or a dictionary is listed in come from an `Env`.
 */
module CustomPlaylists {
  import opened Wrappers
  import opened Text
  import opened Lists
  import opened Records
  import opened GenreNormalize
  import opened GenrePipeline
  import opened PlaylistNames
  import opened Bucketing
  import opened PlaylistWrites
  import GenreExamples

  // ----- get_original_playlist_tracks_by_artist -----

  /** How often `a` occurs in `s`. */
  function Count(s: seq<string>, a: string): nat
  {
    if s == [] then 0 else Count(s[..|s| - 1], a) + (if s[|s| - 1] == a then 1 else 0)
  }

  /** `n` copies of `x`. */
  function Repeat(x: string, n: nat): seq<string>
  {
    if n == 0 then [] else Repeat(x, n - 1) + [x]
  }

  /** The list of `a` in `m`, or the empty list the loop starts it with. */
  function ListOf(m: map<string, seq<string>>, a: string): seq<string>
  {
    if a in m then m[a] else []
  }

  /** `artist_tracks[artist_id].append(track_id)` for the credited artists, in order. */
  function Credit(m: map<string, seq<string>>, trackId: string, artists: seq<string>): map<string, seq<string>>
  {
    if artists == [] then m
    else
      var m' := Credit(m, trackId, artists[..|artists| - 1]);
      var a := artists[|artists| - 1];
      m'[a := ListOf(m', a) + [trackId]]
  }

  /** The grouping loop over the playlist's items; a null track is skipped. */
  function Grouped(tracks: seq<Item>): map<string, seq<string>>
  {
    if tracks == [] then map[]
    else
      var m := Grouped(tracks[..|tracks| - 1]);
      match tracks[|tracks| - 1]
        case None => m
        case Some(t) => Credit(m, t.id, t.artists)
  }

  /** The ids of the tracks crediting `a`, once per credit, in playlist order. */
  function CreditsOf(tracks: seq<Item>, a: string): seq<string>
  {
    if tracks == [] then []
    else
      CreditsOf(tracks[..|tracks| - 1], a) +
      (match tracks[|tracks| - 1] case None => [] case Some(t) => Repeat(t.id, Count(t.artists, a)))
  }

  /** Crediting a track appends its id to each credited artist's list, once per credit. */
  lemma {:induction false} CreditMeaning(m: map<string, seq<string>>, trackId: string, artists: seq<string>, a: string)
    ensures a in Credit(m, trackId, artists) <==> a in m || a in artists
    ensures ListOf(Credit(m, trackId, artists), a) == ListOf(m, a) + Repeat(trackId, Count(artists, a))
  {
    if artists != [] {
      var front := artists[..|artists| - 1];
      var last := artists[|artists| - 1];
      CreditMeaning(m, trackId, front, a);
      assert artists == front + [last];
      var m' := Credit(m, trackId, front);
      assert Credit(m, trackId, artists) == m'[last := ListOf(m', last) + [trackId]];
      if last == a {
        assert Count(artists, a) == Count(front, a) + 1;
        assert Repeat(trackId, Count(artists, a)) == Repeat(trackId, Count(front, a)) + [trackId];
      } else {
        assert Count(artists, a) == Count(front, a);
      }
    }
  }

  lemma RepeatMember(x: string, n: nat, y: string)
    ensures y in Repeat(x, n) <==> n > 0 && y == x
  {
    if n > 0 {
      RepeatMember(x, n - 1, y);
    }
  }

  lemma CountMember(s: seq<string>, a: string)
    ensures Count(s, a) > 0 <==> a in s
  {
    if s != [] {
      CountMember(s[..|s| - 1], a);
      assert s == s[..|s| - 1] + [s[|s| - 1]];
    }
  }

  /**
   * The grouping holds exactly the artists credited on some non-null track,
   * and each artist's list is the ids of the tracks crediting it, in order.
   */
  lemma {:induction false} GroupedMeaning(tracks: seq<Item>, a: string)
    ensures a in Grouped(tracks) <==> exists j :: 0 <= j < |tracks| && tracks[j].Some? && a in tracks[j].value.artists
    ensures ListOf(Grouped(tracks), a) == CreditsOf(tracks, a)
  {
    if tracks != [] {
      var front := tracks[..|tracks| - 1];
      GroupedMeaning(front, a);
      assert forall j :: 0 <= j < |front| ==> front[j] == tracks[j];
      match tracks[|tracks| - 1]
        case None =>
        case Some(t) =>
          CreditMeaning(Grouped(front), t.id, t.artists, a);
    }
  }

  /** A track id is listed under `a` iff a non-null track with that id credits `a`. */
  lemma {:induction false} CreditsOfMember(tracks: seq<Item>, a: string, x: string)
    ensures x in CreditsOf(tracks, a) <==>
      exists j :: 0 <= j < |tracks| && tracks[j].Some? && tracks[j].value.id == x && a in tracks[j].value.artists
  {
    if tracks != [] {
      var front := tracks[..|tracks| - 1];
      CreditsOfMember(front, a, x);
      assert forall j :: 0 <= j < |front| ==> front[j] == tracks[j];
      match tracks[|tracks| - 1]
        case None =>
        case Some(t) =>
          RepeatMember(t.id, Count(t.artists, a), x);
          CountMember(t.artists, a);
    }
  }

  /** `for artist in track['track']['artists']`: the track's id appended under each credited artist. */
  method AddCredits(m: map<string, seq<string>>, trackId: string, artists: seq<string>)
    returns (r: map<string, seq<string>>)
    ensures r == Credit(m, trackId, artists)
  {
    r := m;
    for k: nat := 0 to |artists|
      invariant r == Credit(m, trackId, artists[..k])
    {
      assert artists[..k + 1][..k] == artists[..k];
      var artistId := artists[k];
      if artistId !in r {
        r := r[artistId := []];
      }
      r := r[artistId := r[artistId] + [trackId]];
    }
    assert artists[..|artists|] == artists;
  }

  /** `get_original_playlist_tracks_by_artist`, with the playlist's items given. */
  method GetOriginalPlaylistTracksByArtist(tracks: seq<Item>) returns (artistTracks: map<string, seq<string>>)
    ensures artistTracks == Grouped(tracks)
  {
    artistTracks := map[];
    for k: nat := 0 to |tracks|
      invariant artistTracks == Grouped(tracks[..k])
    {
      assert tracks[..k + 1][..k] == tracks[..k];
      if tracks[k].Some? {
        artistTracks := AddCredits(artistTracks, tracks[k].value.id, tracks[k].value.artists);
      }
    }
    assert tracks[..|tracks|] == tracks;
  }

  // ----- the artists taken -----

  /** `isinstance(data, dict) and data.get('genres')`. */
  predicate HasGenres(e: CustomEntry)
  {
    e.CDict? && e.genres.Some? && e.genres.value != []
  }

  /** `artists_with_genres`. */
  function Selection(custom: CustomGenres, artistTracks: map<string, seq<string>>): CustomGenres
  {
    map id | id in custom && HasGenres(custom[id]) && id in artistTracks :: custom[id]
  }

  /** An artist is taken iff it has genres in the file and some non-null track of the playlist credits it. */
  lemma SelectionMeaning(custom: CustomGenres, tracks: seq<Item>, id: string)
    ensures id in Selection(custom, Grouped(tracks)) <==>
      id in custom && HasGenres(custom[id]) &&
      exists j :: 0 <= j < |tracks| && tracks[j].Some? && id in tracks[j].value.artists
  {
    GroupedMeaning(tracks, id);
  }

  /** The genres of a taken artist (`artist_data['genres']`). */
  function RawOf(sel: CustomGenres, id: string): seq<string>
  {
    if id in sel && sel[id].CDict? && sel[id].genres.Some? then sel[id].genres.value else []
  }

  // ----- one artist -----

  /** `all_normalized_genres`: the labels of the artist's genres under `norm`, as a set. */
  function LabelSet(raw: seq<string>, norm: string -> seq<string>): set<string>
  {
    Elems(FlatMap(raw, norm))
  }

  /** `all_normalized_genres.update(normalize_genre(raw_genre))` over the artist's genres. */
  method CollectLabels(raw: seq<string>) returns (allNormalizedGenres: set<string>)
    ensures allNormalizedGenres == LabelSet(raw, Normalized)
  {
    allNormalizedGenres := {};
    for j: nat := 0 to |raw|
      invariant allNormalizedGenres == Elems(FlatMap(raw[..j], Normalized))
    {
      var normalizedGenres := NormalizeGenre(raw[j]);
      FlatMapStep(raw, Normalized, j);
      ElemsAppend(FlatMap(raw[..j], Normalized), normalizedGenres);
      allNormalizedGenres := allNormalizedGenres + Elems(normalizedGenres);
    }
    assert raw[..|raw|] == raw;
  }

  /** `playlists_to_update`: the playlists `find_matching_playlists` finds for some label, `norm` normalizing it again. */
  function TargetsOf(labels: seq<string>, existing: map<string, string>, norm: string -> seq<string>): set<string>
  {
    if labels == [] then {}
    else TargetsOf(labels[..|labels| - 1], existing, norm) + MatchingIds(norm(labels[|labels| - 1]), existing)
  }

  lemma TargetsStep(labels: seq<string>, existing: map<string, string>, norm: string -> seq<string>, k: nat)
    requires k < |labels|
    ensures TargetsOf(labels[..k + 1], existing, norm) == TargetsOf(labels[..k], existing, norm) + MatchingIds(norm(labels[k]), existing)
  {
    assert labels[..k + 1][..k] == labels[..k];
  }

  /** `genre_tracks[norm_genre].update(artist_tracks)` for each label, in order. */
  function Gather(b: Buckets, labels: seq<string>, ids: set<string>): Buckets
  {
    if labels == [] then b
    else
      var r := Gather(b, labels[..|labels| - 1], ids);
      r[labels[|labels| - 1] := BucketOf(r, labels[|labels| - 1]) + ids]
  }

  /** Gathering adds the ids to the bucket of each label and leaves every other bucket alone. */
  lemma {:induction false} GatherMeaning(b: Buckets, labels: seq<string>, ids: set<string>, g: string)
    ensures g in Gather(b, labels, ids) <==> g in b || g in labels
    ensures BucketOf(Gather(b, labels, ids), g) == BucketOf(b, g) + (if g in labels then ids else {})
  {
    if labels != [] {
      var front := labels[..|labels| - 1];
      GatherMeaning(b, front, ids, g);
      assert labels == front + [labels[|labels| - 1]];
    }
  }

  /** A playlist found for a label is one of the account's playlists. */
  lemma {:induction false} TargetsExist(labels: seq<string>, existing: map<string, string>, norm: string -> seq<string>, p: string)
    requires p in TargetsOf(labels, existing, norm)
    ensures exists name :: name in existing && existing[name] == p
  {
    var front := labels[..|labels| - 1];
    if p in TargetsOf(front, existing, norm) {
      TargetsExist(front, existing, norm, p);
    }
  }

  /** Writing a key twice leaves the second value. */
  lemma OverwriteTwice<K, V>(m: map<K, V>, k: K, v: V, w: V)
    ensures m[k := v][k := w] == m[k := w]
  {
  }

  lemma GatherStep(b: Buckets, labels: seq<string>, ids: set<string>, k: nat)
    requires k < |labels|
    ensures var r := Gather(b, labels[..k], ids);
      Gather(b, labels[..k + 1], ids) == r[labels[k] := BucketOf(r, labels[k]) + ids]
  {
    assert labels[..k + 1][..k] == labels[..k];
  }

  /** `genre_tracks[norm_genre].update(artist_tracks)`, the bucket made empty first when missing. */
  method UpdateBucket(b: Buckets, genre: string, ids: set<string>) returns (r: Buckets)
    ensures r == b[genre := BucketOf(b, genre) + ids]
  {
    r := b;
    if genre !in r {
      r := r[genre := {}];
    }
    OverwriteTwice(b, genre, {}, r[genre] + ids);
    r := r[genre := r[genre] + ids];
  }

  /** The inner loop over the labels: the playlists found and the buckets filled. */
  method MatchAndGather(labels: seq<string>, existing: map<string, string>, genreTracks: Buckets, ids: set<string>)
    returns (playlistsToUpdate: set<string>, b: Buckets)
    ensures playlistsToUpdate == TargetsOf(labels, existing, Normalized)
    ensures b == Gather(genreTracks, labels, ids)
  {
    playlistsToUpdate := {};
    b := genreTracks;
    for k: nat := 0 to |labels|
      invariant playlistsToUpdate == TargetsOf(labels[..k], existing, Normalized)
      invariant b == Gather(genreTracks, labels[..k], ids)
    {
      var matchingPlaylists := FindMatchingPlaylists(labels[k], existing);
      TargetsStep(labels, existing, Normalized, k);
      GatherStep(genreTracks, labels, ids, k);
      playlistsToUpdate := playlistsToUpdate + matchingPlaylists;
      b := UpdateBucket(b, labels[k], ids);
    }
    assert labels[..|labels|] == labels;
  }

  /** `[track_id for track_id in artist_tracks if track_id not in existing_tracks]`. */
  function Missing(s: seq<string>, present: set<string>): (r: seq<string>)
    ensures |r| <= |s|
  {
    if s == [] then []
    else Missing(s[..|s| - 1], present) + (if s[|s| - 1] in present then [] else [s[|s| - 1]])
  }

  /** The filter keeps exactly the tracks not present. */
  lemma {:induction false} MissingMember(s: seq<string>, present: set<string>, x: string)
    ensures x in Missing(s, present) <==> x in s && x !in present
  {
    if s != [] {
      var front := s[..|s| - 1];
      MissingMember(front, present, x);
      assert s == front + [s[|s| - 1]];
    }
  }

  /** What one playlist of `playlists_to_update` gave: the calls, the tracks counted, and whether it counts as updated. */
  datatype Outcome = Outcome(calls: seq<Call>, added: nat, updated: bool)

  /**
   * One playlist: read its tracks, send the artist's tracks it lacks.
   * An exception, on the read or on a slice, ends this playlist uncounted.
   */
  function UpdateTarget(p: string, artistTracks: seq<string>, env: Env): Outcome
  {
    var c := ReadTracks(p);
    if env.fails(c) then Outcome([c], 0, false)
    else
      var newTracks := Missing(artistTracks, env.tracksOf(p));
      if newTracks == [] then Outcome([c], 0, false)
      else
        var r := AddChunks(p, newTracks, 0, env.fails);
        Outcome([c] + r.calls, if r.ok then |newTracks| else 0, r.ok)
  }

  /** The body of the playlist loop: the read, the missing tracks and their adds; an exception skips the playlist. */
  method UpdateOneTarget(p: string, artistTracks: seq<string>, env: Env) returns (o: Outcome)
    ensures o == UpdateTarget(p, artistTracks, env)
  {
    var c := ReadTracks(p);
    if env.fails(c) {
      return Outcome([c], 0, false);
    }
    var existingTracks := env.tracksOf(p);
    var newTracks := [];
    for k: nat := 0 to |artistTracks|
      invariant newTracks == Missing(artistTracks[..k], existingTracks)
    {
      assert artistTracks[..k + 1][..k] == artistTracks[..k];
      if artistTracks[k] !in existingTracks {
        newTracks := newTracks + [artistTracks[k]];
      }
    }
    assert artistTracks[..|artistTracks|] == artistTracks;
    if newTracks == [] {
      return Outcome([c], 0, false);
    }
    var r := SendChunks(p, newTracks, env.fails);
    o := Outcome([c] + r.calls, if r.ok then |newTracks| else 0, r.ok);
  }

  /**
   * A playlist receives only the artist's tracks it lacks, in non-empty
   * slices of at most 50, and no playlist is created.
   */
  lemma UpdateTargetShape(p: string, artistTracks: seq<string>, env: Env)
    ensures var o := UpdateTarget(p, artistTracks, env);
      forall c :: c in o.calls ==> !c.CreatePlaylist? && !c.CurrentUser?
    ensures var o := UpdateTarget(p, artistTracks, env);
      forall c :: c in o.calls && c.AddItems? ==>
        c.playlist == p && 0 < |c.chunk| <= ChunkSize &&
        forall x :: x in c.chunk ==> x in artistTracks && x !in env.tracksOf(p)
  {
    var c := ReadTracks(p);
    var newTracks := Missing(artistTracks, env.tracksOf(p));
    if !env.fails(c) && newTracks != [] {
      AddChunksShape(p, newTracks, 0, env.fails);
      assert newTracks[0..] == newTracks;
      forall x | x in newTracks ensures x in artistTracks && x !in env.tracksOf(p) {
        MissingMember(artistTracks, env.tracksOf(p), x);
      }
    }
  }

  /** When nothing raises, a playlist receives every track of the artist it lacks, and counts their number. */
  lemma UpdateTargetAdds(p: string, artistTracks: seq<string>, env: Env)
    requires NeverFails(env)
    ensures AddedTo(UpdateTarget(p, artistTracks, env).calls, p) == Elems(artistTracks) - env.tracksOf(p)
    ensures UpdateTarget(p, artistTracks, env).added == |Missing(artistTracks, env.tracksOf(p))|
  {
    var c := ReadTracks(p);
    assert !env.fails(c);
    var newTracks := Missing(artistTracks, env.tracksOf(p));
    forall x ensures x in Elems(newTracks) <==> x in Elems(artistTracks) - env.tracksOf(p) {
      MissingMember(artistTracks, env.tracksOf(p), x);
    }
    AddedToNone([c], p);
    if newTracks != [] {
      var r := AddChunks(p, newTracks, 0, env.fails);
      AddChunksOk(p, newTracks, 0, env.fails);
      AddChunksAdded(p, newTracks, 0, env.fails);
      assert newTracks[0..] == newTracks;
      AddedToAppend([c], r.calls, p);
    } else {
      assert Elems(newTracks) == {};
    }
  }

  /** Calls, tracks counted and playlists updated so far. */
  datatype Tally = Tally(calls: seq<Call>, total: nat, updated: set<string>)

  /** `for playlist_id in playlists_to_update`, in the order listed. */
  function UpdateTargets(ps: seq<string>, artistTracks: seq<string>, env: Env): Tally
  {
    if ps == [] then Tally([], 0, {})
    else
      var t := UpdateTargets(ps[..|ps| - 1], artistTracks, env);
      var o := UpdateTarget(ps[|ps| - 1], artistTracks, env);
      Tally(t.calls + o.calls, t.total + o.added, if o.updated then t.updated + {ps[|ps| - 1]} else t.updated)
  }

  /** `for playlist_id in playlists_to_update`, in the order listed. */
  method UpdateEachTarget(ps: seq<string>, artistTracks: seq<string>, env: Env) returns (t: Tally)
    ensures t == UpdateTargets(ps, artistTracks, env)
  {
    t := Tally([], 0, {});
    for k: nat := 0 to |ps|
      invariant t == UpdateTargets(ps[..k], artistTracks, env)
    {
      assert ps[..k + 1][..k] == ps[..k];
      var o := UpdateOneTarget(ps[k], artistTracks, env);
      t := Tally(t.calls + o.calls, t.total + o.added, if o.updated then t.updated + {ps[k]} else t.updated);
    }
    assert ps[..|ps|] == ps;
  }

  /** Every add of the playlist loop goes to a listed playlist that lacked the track; nothing is created. */
  lemma {:induction false} UpdateTargetsShape(ps: seq<string>, artistTracks: seq<string>, env: Env)
    ensures var t := UpdateTargets(ps, artistTracks, env);
      forall c :: c in t.calls ==> !c.CreatePlaylist? && !c.CurrentUser?
    ensures var t := UpdateTargets(ps, artistTracks, env);
      forall c :: c in t.calls && c.AddItems? ==>
        c.playlist in ps && 0 < |c.chunk| <= ChunkSize &&
        forall x :: x in c.chunk ==> x in artistTracks && x !in env.tracksOf(c.playlist)
    ensures UpdateTargets(ps, artistTracks, env).updated <= Elems(ps)
  {
    if ps != [] {
      var front := ps[..|ps| - 1];
      UpdateTargetsShape(front, artistTracks, env);
      UpdateTargetShape(ps[|ps| - 1], artistTracks, env);
      assert forall q :: q in front ==> q in ps;
    }
  }

  // ----- the artists loop -----

  /** The pass so far: calls, `genre_tracks`, `total_updates`, `playlists_updated`, `artists_processed`. */
  datatype PassState = PassState(calls: seq<Call>, genreTracks: Buckets, total: nat, updated: set<string>, processed: nat)

  /**
   * One taken artist: its labels fill the buckets; with no matching playlist
   * it is skipped (`continue`) uncounted, otherwise each matching playlist is
   * updated and the artist counts as processed.
   */
  function ArtistStep(s: PassState, raw: seq<string>, artistTracks: seq<string>, existing: map<string, string>, env: Env,
                      norm: string -> seq<string>): PassState
  {
    var labels := env.listOf(LabelSet(raw, norm));
    UpdateStep(s, Gather(s.genreTracks, labels, Elems(artistTracks)), TargetsOf(labels, existing, norm), artistTracks, env)
  }

  /** The state once the buckets are `b` and the matching playlists are `targets`. */
  function UpdateStep(s: PassState, b: Buckets, targets: set<string>, artistTracks: seq<string>, env: Env): PassState
  {
    if targets == {} then s.(genreTracks := b)
    else
      var t := UpdateTargets(env.listOf(targets), artistTracks, env);
      PassState(s.calls + t.calls, b, s.total + t.total, s.updated + t.updated, s.processed + 1)
  }

  /** The artists loop over `ids`, in order. */
  function ArtistsPass(ids: seq<string>, sel: CustomGenres, artistTracks: map<string, seq<string>>,
                      existing: map<string, string>, env: Env, norm: string -> seq<string>): PassState
  {
    if ids == [] then PassState([], map[], 0, {}, 0)
    else
      var id := ids[|ids| - 1];
      ArtistStep(ArtistsPass(ids[..|ids| - 1], sel, artistTracks, existing, env, norm),
                 RawOf(sel, id), ListOf(artistTracks, id), existing, env, norm)
  }

  lemma ArtistsPassStep(ids: seq<string>, sel: CustomGenres, artistTracks: map<string, seq<string>>,
                        existing: map<string, string>, env: Env, norm: string -> seq<string>, k: nat)
    requires k < |ids|
    ensures ArtistsPass(ids[..k + 1], sel, artistTracks, existing, env, norm) ==
      ArtistStep(ArtistsPass(ids[..k], sel, artistTracks, existing, env, norm), RawOf(sel, ids[k]), ListOf(artistTracks, ids[k]), existing, env, norm)
  {
    assert ids[..k + 1][..k] == ids[..k];
  }

  /** The buckets after one artist: its tracks gathered under its labels. */
  lemma ArtistStepBuckets(s: PassState, raw: seq<string>, artistTracks: seq<string>, existing: map<string, string>, env: Env,
                          norm: string -> seq<string>)
    ensures ArtistStep(s, raw, artistTracks, existing, env, norm).genreTracks ==
      Gather(s.genreTracks, env.listOf(LabelSet(raw, norm)), Elems(artistTracks))
  {
  }

  /** The body of the artists loop for one artist. */
  method ProcessArtist(s: PassState, raw: seq<string>, artistTracks: seq<string>, existing: map<string, string>, env: Env)
    returns (r: PassState)
    ensures r == ArtistStep(s, raw, artistTracks, existing, env, Normalized)
  {
    var allNormalizedGenres := CollectLabels(raw);
    var playlistsToUpdate, genreTracks := MatchAndGather(env.listOf(allNormalizedGenres), existing, s.genreTracks, Elems(artistTracks));
    r := UpdatePlaylists(s, genreTracks, playlistsToUpdate, artistTracks, env);
  }

  /** The `if not playlists_to_update: continue` test, then the playlist loop. */
  method UpdatePlaylists(s: PassState, b: Buckets, targets: set<string>, artistTracks: seq<string>, env: Env)
    returns (r: PassState)
    ensures r == UpdateStep(s, b, targets, artistTracks, env)
  {
    if targets == {} {
      return s.(genreTracks := b);
    }
    var t := UpdateEachTarget(env.listOf(targets), artistTracks, env);
    r := PassState(s.calls + t.calls, b, s.total + t.total, s.updated + t.updated, s.processed + 1);
  }

  /** `for artist_id, artist_data in artists_with_genres.items()`, in the order listed. */
  method ProcessArtists(ids: seq<string>, sel: CustomGenres, artistTracks: map<string, seq<string>>,
                        existing: map<string, string>, env: Env)
    returns (s: PassState)
    ensures s == ArtistsPass(ids, sel, artistTracks, existing, env, Normalized)
  {
    s := PassState([], map[], 0, {}, 0);
    for k: nat := 0 to |ids|
      invariant s == ArtistsPass(ids[..k], sel, artistTracks, existing, env, Normalized)
    {
      ArtistsPassStep(ids, sel, artistTracks, existing, env, Normalized, k);
      var artistId := ids[k];
      var rawGenres := RawOf(sel, artistId);
      var tracks := ListOf(artistTracks, artistId);
      s := ProcessArtist(s, rawGenres, tracks, existing, env);
    }
    assert ids[..|ids|] == ids;
  }

  /** Artist `id` has label `g`. */
  function HasLabel(sel: CustomGenres, norm: string -> seq<string>, g: string): string -> bool
  {
    (id: string) => g in LabelSet(RawOf(sel, id), norm)
  }

  /** Artist `id` has label `g` and is credited on track `x`. */
  function HasLabelOn(sel: CustomGenres, artistTracks: map<string, seq<string>>, norm: string -> seq<string>,
                      g: string, x: string): string -> bool
  {
    (id: string) => g in LabelSet(RawOf(sel, id), norm) && x in ListOf(artistTracks, id)
  }

  lemma {:induction false} PassBucketsBack(ids: seq<string>, sel: CustomGenres, artistTracks: map<string, seq<string>>,
                                           existing: map<string, string>, env: Env, norm: string -> seq<string>, g: string, x: string)
    requires Enumerates(env.listOf)
    ensures var b := ArtistsPass(ids, sel, artistTracks, existing, env, norm).genreTracks;
      g in b <==> AnyBack(ids, HasLabel(sel, norm, g))
    ensures var b := ArtistsPass(ids, sel, artistTracks, existing, env, norm).genreTracks;
      x in BucketOf(b, g) <==> AnyBack(ids, HasLabelOn(sel, artistTracks, norm, g, x))
  {
    if ids != [] {
      var front := ids[..|ids| - 1];
      var id := ids[|ids| - 1];
      PassBucketsBack(front, sel, artistTracks, existing, env, norm, g, x);
      var s := ArtistsPass(front, sel, artistTracks, existing, env, norm);
      var labels := env.listOf(LabelSet(RawOf(sel, id), norm));
      ArtistStepBuckets(s, RawOf(sel, id), ListOf(artistTracks, id), existing, env, norm);
      GatherMeaning(s.genreTracks, labels, Elems(ListOf(artistTracks, id)), g);
      assert g in labels <==> g in LabelSet(RawOf(sel, id), norm);
    }
  }

  /**
   * A label's bucket holds exactly the tracks of the listed artists having
   * that label, and only labels of those artists have buckets.
   */
  lemma PassBuckets(ids: seq<string>, sel: CustomGenres, artistTracks: map<string, seq<string>>,
                    existing: map<string, string>, env: Env, norm: string -> seq<string>, g: string, x: string)
    requires Enumerates(env.listOf)
    ensures var b := ArtistsPass(ids, sel, artistTracks, existing, env, norm).genreTracks;
      g in b <==> exists i :: 0 <= i < |ids| && g in LabelSet(RawOf(sel, ids[i]), norm)
    ensures var b := ArtistsPass(ids, sel, artistTracks, existing, env, norm).genreTracks;
      x in BucketOf(b, g) <==>
        exists i :: 0 <= i < |ids| && g in LabelSet(RawOf(sel, ids[i]), norm) && x in ListOf(artistTracks, ids[i])
  {
    PassBucketsBack(ids, sel, artistTracks, existing, env, norm, g, x);
    AnyBackIndex(ids, HasLabel(sel, norm, g));
    AnyBackIndex(ids, HasLabelOn(sel, artistTracks, norm, g, x));
  }

  /** An artist whose genres all normalize to nothing changes nothing, not even the buckets. */
  lemma SilentArtist(s: PassState, raw: seq<string>, artistTracks: seq<string>, existing: map<string, string>, env: Env,
                     norm: string -> seq<string>)
    requires Enumerates(env.listOf)
    requires forall i :: 0 <= i < |raw| ==> norm(raw[i]) == []
    ensures ArtistStep(s, raw, artistTracks, existing, env, norm) == s
  {
    FlatMapEmpty(raw, norm);
    assert Elems(env.listOf({})) == {};
    NoElemsEmpty(env.listOf({}));
  }

  /** So an artist whose only custom genre is "Metal" is skipped: "Metal" normalizes to no label. */
  lemma MetalArtistSkipped(s: PassState, artistTracks: seq<string>, existing: map<string, string>, env: Env)
    requires Enumerates(env.listOf)
    ensures ArtistStep(s, ["Metal"], artistTracks, existing, env, Normalized) == s
  {
    GenreExamples.Metal("Metal");
    SilentArtist(s, ["Metal"], artistTracks, existing, env, Normalized);
  }

  /** The calls one artist adds: none creates, and each add goes to an existing playlist that lacked an artist's track. */
  lemma ArtistStepWrites(s: PassState, raw: seq<string>, artistTracks: seq<string>, existing: map<string, string>, env: Env,
                         norm: string -> seq<string>)
    requires Enumerates(env.listOf)
    ensures var r := ArtistStep(s, raw, artistTracks, existing, env, norm);
      r.calls[..|s.calls|] == s.calls && r.processed <= s.processed + 1 &&
      forall c :: c in r.calls[|s.calls|..] ==> !c.CreatePlaylist? && !c.CurrentUser?
    ensures var r := ArtistStep(s, raw, artistTracks, existing, env, norm);
      forall c :: c in r.calls[|s.calls|..] && c.AddItems? ==>
        (exists name :: name in existing && existing[name] == c.playlist) && 0 < |c.chunk| <= ChunkSize &&
        forall x :: x in c.chunk ==> x !in env.tracksOf(c.playlist) && x in artistTracks
  {
    var labels := env.listOf(LabelSet(raw, norm));
    var targets := TargetsOf(labels, existing, norm);
    if targets != {} {
      var ps := env.listOf(targets);
      var t := UpdateTargets(ps, artistTracks, env);
      UpdateTargetsShape(ps, artistTracks, env);
      var r := ArtistStep(s, raw, artistTracks, existing, env, norm);
      assert r.calls == s.calls + t.calls;
      assert r.calls[|s.calls|..] == t.calls;
      forall c | c in t.calls && c.AddItems?
        ensures exists name :: name in existing && existing[name] == c.playlist
      {
        assert c.playlist in Elems(ps);
        TargetsExist(labels, existing, norm, c.playlist);
      }
    }
  }

  /**
   * In the artists loop nothing is created, and every add goes to an
   * existing playlist that lacked the track, which some listed artist has in
   * the source playlist; at most one artist is counted per id.
   */
  lemma {:induction false} PassWrites(ids: seq<string>, sel: CustomGenres, artistTracks: map<string, seq<string>>,
                                      existing: map<string, string>, env: Env, norm: string -> seq<string>)
    requires Enumerates(env.listOf)
    ensures var s := ArtistsPass(ids, sel, artistTracks, existing, env, norm);
      forall c :: c in s.calls ==> !c.CreatePlaylist? && !c.CurrentUser?
    ensures var s := ArtistsPass(ids, sel, artistTracks, existing, env, norm);
      forall c :: c in s.calls && c.AddItems? ==>
        (exists name :: name in existing && existing[name] == c.playlist) && 0 < |c.chunk| <= ChunkSize &&
        forall x :: x in c.chunk ==> (x !in env.tracksOf(c.playlist) &&
          exists i :: 0 <= i < |ids| && x in ListOf(artistTracks, ids[i]))
    ensures ArtistsPass(ids, sel, artistTracks, existing, env, norm).processed <= |ids|
  {
    if ids != [] {
      var front := ids[..|ids| - 1];
      var id := ids[|ids| - 1];
      PassWrites(front, sel, artistTracks, existing, env, norm);
      var s := ArtistsPass(front, sel, artistTracks, existing, env, norm);
      var r := ArtistsPass(ids, sel, artistTracks, existing, env, norm);
      ArtistStepWrites(s, RawOf(sel, id), ListOf(artistTracks, id), existing, env, norm);
      assert r.calls == s.calls + r.calls[|s.calls|..];
      assert forall i :: 0 <= i < |front| ==> front[i] == ids[i];
      forall c | c in r.calls
        ensures c in s.calls || c in r.calls[|s.calls|..]
      {
      }
    }
  }

  // ----- the new playlists -----

  /**
   * `create_new_playlist`: look up the user, create the playlist, send the
   * tracks in slices of 50; any exception makes it return False.
   */
  function CreateNew(name: string, ids: seq<string>, env: Env): Run
  {
    if env.fails(CurrentUser) then Run([CurrentUser], false)
    else if env.fails(CreatePlaylist(name)) then Run([CurrentUser, CreatePlaylist(name)], false)
    else
      var r := AddChunks(env.newId(name), ids, 0, env.fails);
      Run([CurrentUser, CreatePlaylist(name)] + r.calls, r.ok)
  }

  /** `create_new_playlist`: the user, the playlist, then the adds in slices of 50; `False` once a call raises. */
  method CreateNewPlaylist(name: string, ids: seq<string>, env: Env) returns (r: Run)
    ensures r == CreateNew(name, ids, env)
  {
    if env.fails(CurrentUser) {
      return Run([CurrentUser], false);
    }
    if env.fails(CreatePlaylist(name)) {
      return Run([CurrentUser, CreatePlaylist(name)], false);
    }
    var playlistId := env.newId(name);
    var added := SendChunks(playlistId, ids, env.fails);
    r := Run([CurrentUser, CreatePlaylist(name)] + added.calls, added.ok);
  }

  /**
   * A playlist that reports success holds every track sent; it is created
   * under the given name only, and adds go to the new playlist's id only.
   */
  lemma CreateNewShape(name: string, ids: seq<string>, env: Env)
    ensures var r := CreateNew(name, ids, env);
      forall c :: c in r.calls && c.CreatePlaylist? ==> c.name == name
    ensures var r := CreateNew(name, ids, env);
      forall c :: c in r.calls && c.AddItems? ==> c.playlist == env.newId(name) && 0 < |c.chunk| <= ChunkSize
    ensures var r := CreateNew(name, ids, env);
      r.ok ==> AddedTo(r.calls, env.newId(name)) == Elems(ids)
    ensures !env.fails(CurrentUser) ==> CreatePlaylist(name) in CreateNew(name, ids, env).calls
  {
    if !env.fails(CurrentUser) && !env.fails(CreatePlaylist(name)) {
      var r := AddChunks(env.newId(name), ids, 0, env.fails);
      AddChunksShape(env.newId(name), ids, 0, env.fails);
      AddChunksAdded(env.newId(name), ids, 0, env.fails);
      assert ids[0..] == ids;
      AddedToAppend([CurrentUser, CreatePlaylist(name)], r.calls, env.newId(name));
      AddedToNone([CurrentUser, CreatePlaylist(name)], env.newId(name));
    }
  }

  /** The creations so far: calls, `new_playlists_created`, tracks counted. */
  datatype Creation = Creation(calls: seq<Call>, created: nat, total: nat)

  /** A bucket of at least 100 tracks whose title-cased label is not an existing playlist name. */
  predicate WantsPlaylist(b: Buckets, g: string, existing: map<string, string>)
  {
    g in b && |b[g]| >= MinTracks && Title(g) !in existing
  }

  /** `for norm_genre, track_ids in genre_tracks.items()`, in the order listed. */
  function CreatePhase(labels: seq<string>, b: Buckets, existing: map<string, string>, env: Env): Creation
  {
    if labels == [] then Creation([], 0, 0)
    else
      var front := CreatePhase(labels[..|labels| - 1], b, existing, env);
      var g := labels[|labels| - 1];
      if !WantsPlaylist(b, g, existing) then front
      else
        var ids := env.listOf(b[g]);
        var r := CreateNew(Title(g), ids, env);
        Creation(front.calls + r.calls, front.created + (if r.ok then 1 else 0), front.total + (if r.ok then |ids| else 0))
  }

  /** `for norm_genre, track_ids in genre_tracks.items()`: the 100-track threshold and the name test, in the order listed. */
  method CreateEachNew(labels: seq<string>, b: Buckets, existing: map<string, string>, env: Env) returns (c: Creation)
    ensures c == CreatePhase(labels, b, existing, env)
  {
    c := Creation([], 0, 0);
    for k: nat := 0 to |labels|
      invariant c == CreatePhase(labels[..k], b, existing, env)
    {
      assert labels[..k + 1][..k] == labels[..k];
      var normGenre := labels[k];
      if normGenre in b && |b[normGenre]| >= MinTracks {
        var playlistName := Title(normGenre);
        if playlistName !in existing {
          var trackIdsList := env.listOf(b[normGenre]);
          var r := CreateNewPlaylist(playlistName, trackIdsList, env);
          if r.ok {
            c := Creation(c.calls + r.calls, c.created + 1, c.total + |trackIdsList|);
          } else {
            c := Creation(c.calls + r.calls, c.created, c.total);
          }
        }
      }
    }
    assert labels[..|labels|] == labels;
  }

  /**
   * A playlist is created only under the title-cased name of a listed label
   * wanting one; when the user lookup does not raise, every such label's
   * playlist is created; at most one playlist per label is counted.
   */
  lemma {:induction false} CreatePhaseNames(labels: seq<string>, b: Buckets, existing: map<string, string>, env: Env, name: string)
    ensures CreatePlaylist(name) in CreatePhase(labels, b, existing, env).calls ==>
      exists k :: 0 <= k < |labels| && WantsPlaylist(b, labels[k], existing) && Title(labels[k]) == name
    ensures !env.fails(CurrentUser) && (exists k :: 0 <= k < |labels| && WantsPlaylist(b, labels[k], existing) && Title(labels[k]) == name) ==>
      CreatePlaylist(name) in CreatePhase(labels, b, existing, env).calls
    ensures CreatePhase(labels, b, existing, env).created <= |labels|
  {
    if labels != [] {
      var front := labels[..|labels| - 1];
      var g := labels[|labels| - 1];
      CreatePhaseNames(front, b, existing, env, name);
      assert forall k :: 0 <= k < |front| ==> front[k] == labels[k];
      if WantsPlaylist(b, g, existing) {
        CreateNewShape(Title(g), env.listOf(b[g]), env);
      }
    }
  }

  // ----- the whole pass -----

  /** What the pass prints at the end, and the calls it made. */
  datatype Summary = Summary(calls: seq<Call>, processed: nat, total: nat, updated: nat, created: nat)

  /** The artists loop over the taken artists, in the order listed. */
  function ArtistsPhase(custom: CustomGenres, tracks: seq<Item>, existing: map<string, string>, env: Env,
                        norm: string -> seq<string>): PassState
  {
    var sel := Selection(custom, Grouped(tracks));
    ArtistsPass(env.listOf(sel.Keys), sel, Grouped(tracks), existing, env, norm)
  }

  /**
   * The pass over the custom-genres entries and the source playlist's items:
   * nothing happens when no artist is taken; otherwise the artists loop,
   * then the new playlists, in the order the buckets are listed.
   */
  function RedoPass(custom: CustomGenres, tracks: seq<Item>, existing: map<string, string>, env: Env,
                    norm: string -> seq<string>): Summary
  {
    if Selection(custom, Grouped(tracks)) == map[] then Summary([], 0, 0, 0, 0)
    else
      var s := ArtistsPhase(custom, tracks, existing, env, norm);
      var c := CreatePhase(env.listOf(s.genreTracks.Keys), s.genreTracks, existing, env);
      Summary(s.calls + c.calls, s.processed, s.total + c.total, |s.updated|, c.created)
  }

  /** `redo_playlist_additions` with the source playlist's items given: the artists loop, then the creations. */
  method RedoPlaylistAdditions(custom: CustomGenres, tracks: seq<Item>, existing: map<string, string>, env: Env)
    returns (r: Summary)
    ensures r == RedoPass(custom, tracks, existing, env, Normalized)
  {
    var originalArtistTracks := GetOriginalPlaylistTracksByArtist(tracks);
    var artistsWithGenres := Selection(custom, originalArtistTracks);
    if artistsWithGenres == map[] {
      return Summary([], 0, 0, 0, 0);
    }
    var s := ProcessArtists(env.listOf(artistsWithGenres.Keys), artistsWithGenres, originalArtistTracks, existing, env);
    var c := CreateEachNew(env.listOf(s.genreTracks.Keys), s.genreTracks, existing, env);
    r := Summary(s.calls + c.calls, s.processed, s.total + c.total, |s.updated|, c.created);
  }

  /** With no artist taken, the pass makes no call. */
  lemma NothingTakenNothingWritten(custom: CustomGenres, tracks: seq<Item>, existing: map<string, string>, env: Env,
                                   norm: string -> seq<string>)
    requires forall id :: id in custom && HasGenres(custom[id]) ==>
      forall j :: 0 <= j < |tracks| && tracks[j].Some? ==> id !in tracks[j].value.artists
    ensures RedoPass(custom, tracks, existing, env, norm).calls == []
  {
    var sel := Selection(custom, Grouped(tracks));
    forall id | id in sel ensures false {
      SelectionMeaning(custom, tracks, id);
    }
    assert sel == map[];
  }

  /**
   * In the whole pass, a playlist is created only for a bucket of at least
   * 100 tracks whose title-cased label is not an existing name; the
   * artists loop before it creates nothing.
   */
  lemma RedoPassCreates(custom: CustomGenres, tracks: seq<Item>, existing: map<string, string>, env: Env,
                        norm: string -> seq<string>, name: string)
    requires Enumerates(env.listOf)
    requires CreatePlaylist(name) in RedoPass(custom, tracks, existing, env, norm).calls
    ensures name !in existing
    ensures exists g :: Title(g) == name && |BucketOf(ArtistsPhase(custom, tracks, existing, env, norm).genreTracks, g)| >= MinTracks
  {
    var s := ArtistsPhase(custom, tracks, existing, env, norm);
    var labels := env.listOf(s.genreTracks.Keys);
    var c := CreatePhase(labels, s.genreTracks, existing, env);
    var sel := Selection(custom, Grouped(tracks));
    PassWrites(env.listOf(sel.Keys), sel, Grouped(tracks), existing, env, norm);
    CreatePhaseNames(labels, s.genreTracks, existing, env, name);
    assert CreatePlaylist(name) in s.calls + c.calls;
    assert CreatePlaylist(name) !in s.calls;
    var k :| 0 <= k < |labels| && WantsPlaylist(s.genreTracks, labels[k], existing) && Title(labels[k]) == name;
    assert BucketOf(s.genreTracks, labels[k]) == s.genreTracks[labels[k]];
  }
}
