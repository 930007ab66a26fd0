/**
 * Cleanup_Playlists.py: genre playlists lose the tracks that no longer
 * belong to their genre. A playlist's genre is the first keyword its name
 * contains; a track's genres are the cached genres of its credited
 * artists; a track stays when `should_track_be_in_playlist` accepts them.
 *
 * The catalog's answers are parameters: the tracks of a slice of ids (or
 * `None` when the request raises), which removals raise, the tracks read
 * from each playlist, and the order `list(set)` lists a set in.
 */
module PlaylistCleanup {
  import opened Wrappers
  import opened Text
  import opened Lists
  import opened Records
  import opened SpotifyClient
  import opened PlaylistMatch
  import opened PlaylistNames

  /** `batch_size = 50` for the fetches and `range(0, len(tracks_to_remove), 50)` for the removals. */
  const BatchSize: nat := 50

  /** The preview looks at `list(all_track_ids)[:20]`. */
  const SampleSize: nat := 20

  /** A failed fetch slice is skipped whole: there is no single-track fallback. */
  function NoSingle(): string -> Option<Option<Track>>
  {
    (id: string) => None
  }

  lemma {:induction false} NoSingleSurvives(batch: seq<string>)
    ensures Survivors(batch, NoSingle()) == []
  {
    if batch != [] {
      NoSingleSurvives(batch[..|batch| - 1]);
    }
  }

  /** The tracks the fetch loop sees: the responses of the slices that did not raise, in order. */
  function FetchedTracks(ids: seq<string>, tracksOf: seq<string> -> Option<seq<Option<Track>>>): seq<Option<Track>>
  {
    FetchedFrom(ids, BatchSize, tracksOf, NoSingle())
  }

  // ----- a track's genres -----

  /** `for artist in track_data['artists']: if artist_id in artist_cache: track_genres.extend(...)`. */
  function CachedGenres(artists: seq<string>, cache: Cache): seq<string>
  {
    if artists == [] then []
    else
      var a := artists[|artists| - 1];
      CachedGenres(artists[..|artists| - 1], cache) + (if a in cache then cache[a].genres else [])
  }

  /** A genre is collected iff some credited, cached artist has it; uncached artists add nothing. */
  lemma {:induction false} CachedGenresMember(artists: seq<string>, cache: Cache, x: string)
    ensures x in CachedGenres(artists, cache) <==>
      exists j :: 0 <= j < |artists| && artists[j] in cache && x in cache[artists[j]].genres
  {
    if artists != [] {
      var front := artists[..|artists| - 1];
      CachedGenresMember(front, cache, x);
      assert forall j :: 0 <= j < |front| ==> front[j] == artists[j];
    }
  }

  /** `for artist in track_data['artists']`: the cached genres of the credited artists, in order. */
  method CollectCachedGenres(artists: seq<string>, cache: Cache) returns (trackGenres: seq<string>)
    ensures trackGenres == CachedGenres(artists, cache)
  {
    trackGenres := [];
    for j: nat := 0 to |artists|
      invariant trackGenres == CachedGenres(artists[..j], cache)
    {
      assert artists[..j + 1][..j] == artists[..j];
      if artists[j] in cache {
        trackGenres := trackGenres + cache[artists[j]].genres;
      }
    }
    assert artists[..|artists|] == artists;
  }

  /** The test a fetched track passes to stay. */
  function Belongs(cache: Cache, playlistGenre: string): Track -> bool
  {
    (t: Track) => ShouldTrack(CachedGenres(t.artists, cache), playlistGenre)
  }

  // ----- keep and remove -----

  /** `tracks_to_keep`: the ids of the non-null tracks that pass. */
  function Kept(items: seq<Option<Track>>, belongs: Track -> bool): seq<string>
  {
    if items == [] then []
    else
      var front := Kept(items[..|items| - 1], belongs);
      match items[|items| - 1]
        case Some(t) => if belongs(t) then front + [t.id] else front
        case None => front
  }

  /** `tracks_to_remove`: the ids of the non-null tracks that fail. */
  function Dropped(items: seq<Option<Track>>, belongs: Track -> bool): seq<string>
  {
    if items == [] then []
    else
      var front := Dropped(items[..|items| - 1], belongs);
      match items[|items| - 1]
        case Some(t) => if belongs(t) then front else front + [t.id]
        case None => front
  }

  /** The number of non-null tracks. */
  function NonNull(items: seq<Option<Track>>): (r: nat)
    ensures r <= |items|
  {
    if items == [] then 0
    else NonNull(items[..|items| - 1]) + (if items[|items| - 1].Some? then 1 else 0)
  }

  /** Every non-null track goes to exactly one of the two lists; null tracks go to neither. */
  lemma {:induction false} PartitionCounts(items: seq<Option<Track>>, belongs: Track -> bool)
    ensures |Kept(items, belongs)| + |Dropped(items, belongs)| == NonNull(items)
  {
    if items != [] {
      PartitionCounts(items[..|items| - 1], belongs);
    }
  }

  /** A kept id is the id of a non-null track that passes; a removed one, of a track that fails. */
  lemma {:induction false} PartitionMember(items: seq<Option<Track>>, belongs: Track -> bool, id: string)
    ensures id in Kept(items, belongs) <==>
      exists k :: 0 <= k < |items| && items[k].Some? && items[k].value.id == id && belongs(items[k].value)
    ensures id in Dropped(items, belongs) <==>
      exists k :: 0 <= k < |items| && items[k].Some? && items[k].value.id == id && !belongs(items[k].value)
  {
    if items != [] {
      var front := items[..|items| - 1];
      PartitionMember(front, belongs, id);
      assert forall k :: 0 <= k < |front| ==> front[k] == items[k];
    }
  }

  lemma PartitionAppend(a: seq<Option<Track>>, b: seq<Option<Track>>, belongs: Track -> bool)
    ensures Kept(a + b, belongs) == Kept(a, belongs) + Kept(b, belongs)
    ensures Dropped(a + b, belongs) == Dropped(a, belongs) + Dropped(b, belongs)
    decreases |b|
  {
    if b == [] {
      assert a + b == a;
    } else {
      var b' := b[..|b| - 1];
      assert (a + b)[..|a + b| - 1] == a + b';
      PartitionAppend(a, b', belongs);
    }
  }

  /** `for track_data in tracks_data['tracks']`: one response sorted into the two lists. */
  method SortResponse(keep: seq<string>, remove: seq<string>, items: seq<Option<Track>>, cache: Cache, playlistGenre: string)
    returns (keep': seq<string>, remove': seq<string>)
    ensures keep' == keep + Kept(items, Belongs(cache, playlistGenre))
    ensures remove' == remove + Dropped(items, Belongs(cache, playlistGenre))
  {
    ghost var belongs := Belongs(cache, playlistGenre);
    keep', remove' := keep, remove;
    for k: nat := 0 to |items|
      invariant keep' == keep + Kept(items[..k], belongs)
      invariant remove' == remove + Dropped(items[..k], belongs)
    {
      assert items[..k + 1][..k] == items[..k];
      if items[k].Some? {
        var trackData := items[k].value;
        var trackGenres := CollectCachedGenres(trackData.artists, cache);
        var b := ShouldTrackBeInPlaylist(trackGenres, playlistGenre);
        if b {
          keep' := keep' + [trackData.id];
        } else {
          remove' := remove' + [trackData.id];
        }
      }
    }
    assert items[..|items|] == items;
  }

  /** The fetch loop: slices of 50, a slice whose request raises skipped. */
  method SortAll(ids: seq<string>, cache: Cache, playlistGenre: string, tracksOf: seq<string> -> Option<seq<Option<Track>>>)
    returns (tracksToKeep: seq<string>, tracksToRemove: seq<string>)
    ensures tracksToKeep == Kept(FetchedTracks(ids, tracksOf), Belongs(cache, playlistGenre))
    ensures tracksToRemove == Dropped(FetchedTracks(ids, tracksOf), Belongs(cache, playlistGenre))
  {
    ghost var belongs := Belongs(cache, playlistGenre);
    ghost var all: seq<Option<Track>> := [];
    tracksToKeep, tracksToRemove := [], [];
    var i := 0;
    while i < |ids|
      invariant 0 <= i <= |ids|
      invariant all + FetchedFrom(ids[i..], BatchSize, tracksOf, NoSingle()) == FetchedTracks(ids, tracksOf)
      invariant tracksToKeep == Kept(all, belongs) && tracksToRemove == Dropped(all, belongs)
      decreases |ids| - i
    {
      var end := if i + BatchSize <= |ids| then i + BatchSize else |ids|;
      var batchIds := ids[i..end];
      FetchedPrefixStep(ids, i, BatchSize, tracksOf, NoSingle(), all);
      NoSingleSurvives(batchIds);
      var response := tracksOf(batchIds);
      var items: seq<Option<Track>> := if response.Some? then response.value else [];
      assert items == FetchSlice(batchIds, tracksOf, NoSingle());
      PartitionAppend(all, items, belongs);
      tracksToKeep, tracksToRemove := SortResponse(tracksToKeep, tracksToRemove, items, cache, playlistGenre);
      all := all + items;
      i := end;
    }
    assert ids[i..] == [];
    assert all + FetchedFrom(ids[i..], BatchSize, tracksOf, NoSingle()) == all;
  }

  // ----- the removals -----

  function SliceEnd(n: nat, i: nat): nat
  {
    if i + BatchSize <= n then i + BatchSize else n
  }

  /** What the removal loop removed: the count and the ids of the slices that did not raise. */
  datatype Removal = Removal(removed: nat, gone: seq<string>)

  /**
   * `sp.playlist_remove_all_occurrences_of_items(playlist_id, batch)` for the
   * slices of `ids` from `i` on; a slice that raises is reported and the
   * loop goes on.
   */
  function Removals(ids: seq<string>, i: nat, fails: seq<string> -> bool): (r: Removal)
    ensures r.removed == |r.gone|
    decreases |ids| - i
  {
    if i >= |ids| then Removal(0, [])
    else
      var batch := ids[i..SliceEnd(|ids|, i)];
      var rest := Removals(ids, SliceEnd(|ids|, i), fails);
      if fails(batch) then rest else Removal(|batch| + rest.removed, batch + rest.gone)
  }

  /** Only listed ids are removed, each slice at most once, so no more than were listed. */
  lemma {:induction false} RemovalsWithin(ids: seq<string>, i: nat, fails: seq<string> -> bool)
    requires i <= |ids|
    ensures forall x :: x in Removals(ids, i, fails).gone ==> x in ids[i..]
    ensures Removals(ids, i, fails).removed <= |ids| - i
    decreases |ids| - i
  {
    if i < |ids| {
      var end := SliceEnd(|ids|, i);
      RemovalsWithin(ids, end, fails);
      assert ids[i..] == ids[i..end] + ids[end..];
    }
  }

  /** When no removal raises, every listed id is removed, in order. */
  lemma {:induction false} RemovalsAll(ids: seq<string>, i: nat, fails: seq<string> -> bool)
    requires i <= |ids| && forall b :: !fails(b)
    ensures Removals(ids, i, fails).gone == ids[i..]
    decreases |ids| - i
  {
    if i < |ids| {
      var end := SliceEnd(|ids|, i);
      RemovalsAll(ids, end, fails);
      assert ids[i..] == ids[i..end] + ids[end..];
    }
  }

  /** The removal loop over `tracks_to_remove`, in slices of 50. */
  method RemoveInBatches(tracksToRemove: seq<string>, fails: seq<string> -> bool) returns (removedCount: nat)
    ensures removedCount == Removals(tracksToRemove, 0, fails).removed
  {
    removedCount := 0;
    var i := 0;
    while i < |tracksToRemove|
      invariant i <= |tracksToRemove|
      invariant removedCount + Removals(tracksToRemove, i, fails).removed == Removals(tracksToRemove, 0, fails).removed
      decreases |tracksToRemove| - i
    {
      var batch := tracksToRemove[i..SliceEnd(|tracksToRemove|, i)];
      if !fails(batch) {
        removedCount := removedCount + |batch|;
      }
      i := SliceEnd(|tracksToRemove|, i);
    }
  }

  // ----- one playlist -----

  /** `{'kept': ..., 'removed': ..., 'total': ...}`. */
  datatype Stats = Stats(kept: nat, removed: nat, total: nat)
  {
    function Plus(o: Stats): Stats { Stats(kept + o.kept, removed + o.removed, total + o.total) }
  }

  /** `cleanup_playlist` on the listed track ids of a playlist. */
  function CleanupStats(ids: seq<string>, total: nat, cache: Cache, playlistName: string,
                        tracksOf: seq<string> -> Option<seq<Option<Track>>>, fails: seq<string> -> bool): Stats
  {
    var items := FetchedTracks(ids, tracksOf);
    var belongs := Belongs(cache, PlaylistGenre(playlistName));
    Stats(|Kept(items, belongs)|, Removals(Dropped(items, belongs), 0, fails).removed, total)
  }

  /** `cleanup_playlist`: the fetch loop, then the removals; the kept, removed and total counts. */
  method CleanupPlaylist(playlistName: string, cache: Cache, allTrackIds: set<string>,
                         listOf: set<string> -> seq<string>, tracksOf: seq<string> -> Option<seq<Option<Track>>>,
                         fails: seq<string> -> bool)
    returns (stats: Stats)
    ensures stats == CleanupStats(listOf(allTrackIds), |allTrackIds|, cache, playlistName, tracksOf, fails)
  {
    var playlistGenre := GetPlaylistGenre(playlistName);
    var tracksToKeep, tracksToRemove := SortAll(listOf(allTrackIds), cache, playlistGenre, tracksOf);
    var removedCount := 0;
    if |tracksToRemove| > 0 {
      removedCount := RemoveInBatches(tracksToRemove, fails);
    }
    stats := Stats(|tracksToKeep|, removedCount, |allTrackIds|);
  }

  /** A catalog that answers a slice with one entry per id. */
  ghost predicate OnePerId(tracksOf: seq<string> -> Option<seq<Option<Track>>>)
  {
    forall b :: tracksOf(b).Some? ==> |tracksOf(b).value| == |b|
  }

  lemma {:induction false} FetchedAtMost(ids: seq<string>, tracksOf: seq<string> -> Option<seq<Option<Track>>>)
    requires OnePerId(tracksOf)
    ensures |FetchedFrom(ids, BatchSize, tracksOf, NoSingle())| <= |ids|
    decreases |ids|
  {
    if ids != [] {
      if |ids| <= BatchSize {
        NoSingleSurvives(ids);
      } else {
        NoSingleSurvives(ids[..BatchSize]);
        FetchedAtMost(ids[BatchSize..], tracksOf);
      }
    }
  }

  /**
   * No more is removed than was found wrong, and, with a catalog answering
   * one entry per id and a listing that lists each id once, kept plus
   * removed is at most the playlist's size.
   */
  lemma CleanupCounts(allTrackIds: set<string>, cache: Cache, playlistName: string, listOf: set<string> -> seq<string>,
                      tracksOf: seq<string> -> Option<seq<Option<Track>>>, fails: seq<string> -> bool)
    ensures var items := FetchedTracks(listOf(allTrackIds), tracksOf);
      var stats := CleanupStats(listOf(allTrackIds), |allTrackIds|, cache, playlistName, tracksOf, fails);
      stats.removed <= |Dropped(items, Belongs(cache, PlaylistGenre(playlistName)))|
    ensures OnePerId(tracksOf) && Enumerates(listOf) && ListsOnce(listOf) ==>
      var stats := CleanupStats(listOf(allTrackIds), |allTrackIds|, cache, playlistName, tracksOf, fails);
      stats.kept + stats.removed <= stats.total
  {
    var ids := listOf(allTrackIds);
    var items := FetchedTracks(ids, tracksOf);
    var belongs := Belongs(cache, PlaylistGenre(playlistName));
    RemovalsWithin(Dropped(items, belongs), 0, fails);
    assert Dropped(items, belongs)[0..] == Dropped(items, belongs);
    PartitionCounts(items, belongs);
    if OnePerId(tracksOf) && Enumerates(listOf) && ListsOnce(listOf) {
      FetchedAtMost(ids, tracksOf);
      assert Elems(ids) == allTrackIds && Distinct(ids);
      DistinctCard(ids);
    }
  }

  /** Every removed id is the id of a fetched track whose cached genres the playlist genre does not match. */
  lemma RemovedOnlyMismatches(ids: seq<string>, cache: Cache, playlistName: string,
                              tracksOf: seq<string> -> Option<seq<Option<Track>>>, fails: seq<string> -> bool, id: string)
    requires var items := FetchedTracks(ids, tracksOf);
      id in Removals(Dropped(items, Belongs(cache, PlaylistGenre(playlistName))), 0, fails).gone
    ensures var items := FetchedTracks(ids, tracksOf);
      exists k :: 0 <= k < |items| && items[k].Some? && items[k].value.id == id &&
        !ShouldTrack(CachedGenres(items[k].value.artists, cache), PlaylistGenre(playlistName))
  {
    var items := FetchedTracks(ids, tracksOf);
    var belongs := Belongs(cache, PlaylistGenre(playlistName));
    var dropped := Dropped(items, belongs);
    RemovalsWithin(dropped, 0, fails);
    assert dropped[0..] == dropped;
    PartitionMember(items, belongs, id);
  }

  /** When no removal raises, every track found wrong is removed. */
  lemma AllMismatchesRemoved(ids: seq<string>, cache: Cache, playlistName: string,
                             tracksOf: seq<string> -> Option<seq<Option<Track>>>, fails: seq<string> -> bool)
    requires forall b :: !fails(b)
    ensures var dropped := Dropped(FetchedTracks(ids, tracksOf), Belongs(cache, PlaylistGenre(playlistName)));
      Removals(dropped, 0, fails).gone == dropped
  {
    var dropped := Dropped(FetchedTracks(ids, tracksOf), Belongs(cache, PlaylistGenre(playlistName)));
    RemovalsAll(dropped, 0, fails);
    assert dropped[0..] == dropped;
  }

  // ----- every genre playlist -----

  /** What `cleanup_all_genre_playlists` ends with. */
  datatype CleanupOutcome = NoGenrePlaylists | Cancelled | Cleaned(playlists: nat, totals: Stats)

  /** `input(...).strip().lower() != 'y'`. */
  predicate Confirms(answer: string)
  {
    Lower(Strip(answer)) == "y"
  }

  /**
   * The totals over the genre playlists named, in order. A playlist whose
   * tracks cannot be read (`None`) raises inside `cleanup_playlist`; the
   * error is reported and the playlist adds nothing.
   */
  function Totals(names: seq<string>, genrePlaylists: map<string, string>, cache: Cache,
                  trackIdsOf: string -> Option<set<string>>, listOf: set<string> -> seq<string>,
                  tracksOf: seq<string> -> Option<seq<Option<Track>>>, fails: seq<string> -> bool): Stats
  {
    if names == [] then Stats(0, 0, 0)
    else
      var front := Totals(names[..|names| - 1], genrePlaylists, cache, trackIdsOf, listOf, tracksOf, fails);
      var name := names[|names| - 1];
      if name in genrePlaylists && trackIdsOf(genrePlaylists[name]).Some? then
        var ids := trackIdsOf(genrePlaylists[name]).value;
        front.Plus(CleanupStats(listOf(ids), |ids|, cache, name, tracksOf, fails))
      else front
  }

  /** The totals of two runs of names add up: a playlist that raises changes nothing beside it. */
  lemma TotalsAppend(a: seq<string>, b: seq<string>, genrePlaylists: map<string, string>, cache: Cache,
                     trackIdsOf: string -> Option<set<string>>, listOf: set<string> -> seq<string>,
                     tracksOf: seq<string> -> Option<seq<Option<Track>>>, fails: seq<string> -> bool)
    ensures Totals(a + b, genrePlaylists, cache, trackIdsOf, listOf, tracksOf, fails) ==
      Totals(a, genrePlaylists, cache, trackIdsOf, listOf, tracksOf, fails).Plus(
        Totals(b, genrePlaylists, cache, trackIdsOf, listOf, tracksOf, fails))
    decreases |b|
  {
    if b == [] {
      assert a + b == a;
    } else {
      var b' := b[..|b| - 1];
      assert (a + b)[..|a + b| - 1] == a + b';
      TotalsAppend(a, b', genrePlaylists, cache, trackIdsOf, listOf, tracksOf, fails);
    }
  }

  /** A playlist whose tracks cannot be read contributes nothing. */
  lemma TotalsOfUnreadable(name: string, genrePlaylists: map<string, string>, cache: Cache,
                           trackIdsOf: string -> Option<set<string>>, listOf: set<string> -> seq<string>,
                           tracksOf: seq<string> -> Option<seq<Option<Track>>>, fails: seq<string> -> bool)
    requires name in genrePlaylists && trackIdsOf(genrePlaylists[name]).None?
    ensures Totals([name], genrePlaylists, cache, trackIdsOf, listOf, tracksOf, fails) == Stats(0, 0, 0)
  {
    assert [name][..0] == [];
  }

  /** The outcome of `cleanup_all_genre_playlists`, the genre playlists listed by `listOf`. */
  function CleanupAll(existing: map<string, string>, answer: string, cache: Cache,
                      trackIdsOf: string -> Option<set<string>>, listOf: set<string> -> seq<string>,
                      tracksOf: seq<string> -> Option<seq<Option<Track>>>, fails: seq<string> -> bool): CleanupOutcome
  {
    var genrePlaylists := GenrePlaylists(existing);
    if |genrePlaylists| == 0 then NoGenrePlaylists
    else if !Confirms(answer) then Cancelled
    else Cleaned(|genrePlaylists|, Totals(listOf(genrePlaylists.Keys), genrePlaylists, cache, trackIdsOf, listOf, tracksOf, fails))
  }

  /** `cleanup_all_genre_playlists`: the genre playlists, the confirmation, then every playlist cleaned. */
  method CleanupAllGenrePlaylists(existing: map<string, string>, answer: string, cache: Cache,
                                  trackIdsOf: string -> Option<set<string>>, listOf: set<string> -> seq<string>,
                                  tracksOf: seq<string> -> Option<seq<Option<Track>>>, fails: seq<string> -> bool)
    returns (r: CleanupOutcome)
    ensures r == CleanupAll(existing, answer, cache, trackIdsOf, listOf, tracksOf, fails)
  {
    var genrePlaylists := IdentifyGenrePlaylists(existing);
    if |genrePlaylists| == 0 {
      return NoGenrePlaylists;
    }
    var response := Lower(Strip(answer));
    if response != "y" {
      return Cancelled;
    }
    var totals := CleanupEach(listOf(genrePlaylists.Keys), genrePlaylists, cache, trackIdsOf, listOf, tracksOf, fails);
    return Cleaned(|genrePlaylists|, totals);
  }

  /** `for playlist_name, playlist_id in genre_playlists.items()`, an exception in one playlist reported and skipped. */
  method CleanupEach(names: seq<string>, genrePlaylists: map<string, string>, cache: Cache,
                     trackIdsOf: string -> Option<set<string>>, listOf: set<string> -> seq<string>,
                     tracksOf: seq<string> -> Option<seq<Option<Track>>>, fails: seq<string> -> bool)
    returns (totals: Stats)
    ensures totals == Totals(names, genrePlaylists, cache, trackIdsOf, listOf, tracksOf, fails)
  {
    totals := Stats(0, 0, 0);
    for k: nat := 0 to |names|
      invariant totals == Totals(names[..k], genrePlaylists, cache, trackIdsOf, listOf, tracksOf, fails)
    {
      assert names[..k + 1][..k] == names[..k];
      var playlistName := names[k];
      if playlistName in genrePlaylists && trackIdsOf(genrePlaylists[playlistName]).Some? {
        var stats := CleanupPlaylist(playlistName, cache, trackIdsOf(genrePlaylists[playlistName]).value, listOf, tracksOf, fails);
        totals := totals.Plus(stats);
      }
    }
    assert names[..|names|] == names;
  }

  /** Nothing is cleaned unless the answer, trimmed and lower-cased, is exactly 'y'. */
  lemma CleanupNeedsYes(existing: map<string, string>, answer: string, cache: Cache,
                        trackIdsOf: string -> Option<set<string>>, listOf: set<string> -> seq<string>,
                        tracksOf: seq<string> -> Option<seq<Option<Track>>>, fails: seq<string> -> bool)
    ensures CleanupAll(existing, answer, cache, trackIdsOf, listOf, tracksOf, fails).Cleaned? <==>
      |GenrePlaylists(existing)| > 0 && Confirms(answer)
  {
  }

  // ----- the preview -----

  /** `list(all_track_ids)[:20]`. */
  function Sample(ids: seq<string>): (r: seq<string>)
    ensures |r| <= SampleSize && |r| <= |ids| && r == ids[..|r|]
    ensures |ids| >= SampleSize ==> |r| == SampleSize
  {
    if |ids| <= SampleSize then ids else ids[..SampleSize]
  }

  /** The sampled tracks found wrong; `None` is a track whose request raised, which is skipped. */
  function Incorrect(sample: seq<string>, trackOf: string -> Option<Track>, belongs: Track -> bool): (r: nat)
    ensures r <= |sample|
  {
    if sample == [] then 0
    else
      var front := Incorrect(sample[..|sample| - 1], trackOf, belongs);
      match trackOf(sample[|sample| - 1])
        case Some(t) => if belongs(t) then front else front + 1
        case None => front
  }

  /** Only fetched tracks that fail the test are counted, and each of them is. */
  lemma {:induction false} IncorrectCounts(sample: seq<string>, trackOf: string -> Option<Track>, belongs: Track -> bool)
    ensures (forall k :: 0 <= k < |sample| ==> trackOf(sample[k]).Some? ==> belongs(trackOf(sample[k]).value)) ==>
      Incorrect(sample, trackOf, belongs) == 0
    ensures (forall k :: 0 <= k < |sample| ==> trackOf(sample[k]).Some? && !belongs(trackOf(sample[k]).value)) ==>
      Incorrect(sample, trackOf, belongs) == |sample|
  {
    if sample != [] {
      var front := sample[..|sample| - 1];
      assert forall k :: 0 <= k < |front| ==> front[k] == sample[k];
      IncorrectCounts(front, trackOf, belongs);
    }
  }

  method CountIncorrect(sample: seq<string>, trackOf: string -> Option<Track>, cache: Cache, playlistGenre: string)
    returns (n: nat)
    ensures n == Incorrect(sample, trackOf, Belongs(cache, playlistGenre))
  {
    ghost var belongs := Belongs(cache, playlistGenre);
    n := 0;
    for k: nat := 0 to |sample|
      invariant n == Incorrect(sample[..k], trackOf, belongs)
    {
      assert sample[..k + 1][..k] == sample[..k];
      var trackData := trackOf(sample[k]);
      if trackData.Some? {
        var trackGenres := CollectCachedGenres(trackData.value.artists, cache);
        var b := ShouldTrackBeInPlaylist(trackGenres, playlistGenre);
        if !b {
          n := n + 1;
        }
      }
    }
    assert sample[..|sample|] == sample;
  }

  /**
   * One genre playlist of the preview: the wrong tracks among its first 20;
   * reading its tracks is not guarded, so a failure there (`None`) raises.
   */
  function PreviewOf(name: string, genrePlaylists: map<string, string>, cache: Cache, trackIdsOf: string -> Option<set<string>>,
                     listOf: set<string> -> seq<string>, trackOf: string -> Option<Track>): (r: Option<nat>)
    ensures name !in genrePlaylists ==> r == Some(0)
    ensures name in genrePlaylists ==> (r.None? <==> trackIdsOf(genrePlaylists[name]).None?)
    ensures r.Some? ==> r.value <= SampleSize
  {
    if name !in genrePlaylists then Some(0)
    else match trackIdsOf(genrePlaylists[name])
      case None => None
      case Some(ids) => Some(Incorrect(Sample(listOf(ids)), trackOf, Belongs(cache, PlaylistGenre(name))))
  }

  function PreviewOne(genrePlaylists: map<string, string>, cache: Cache, trackIdsOf: string -> Option<set<string>>,
                      listOf: set<string> -> seq<string>, trackOf: string -> Option<Track>): string -> Option<nat>
  {
    (name: string) => PreviewOf(name, genrePlaylists, cache, trackIdsOf, listOf, trackOf)
  }

  /** The error that ends the preview. */
  const ReadFailed := "reading the playlist's tracks raised"

  /** The preview's total over the names, in order; the first playlist that raises ends it. */
  function PreviewTotal(names: seq<string>, one: string -> Option<nat>): Result<nat>
  {
    if names == [] then Ok(0)
    else
      var front := PreviewTotal(names[..|names| - 1], one);
      if front.Err? then front
      else match one(names[|names| - 1])
        case None => Err(ReadFailed)
        case Some(n) => Ok(front.value + n)
  }

  /** Each playlist adds at most 20 to the total. */
  lemma {:induction false} PreviewBound(names: seq<string>, genrePlaylists: map<string, string>, cache: Cache,
                                        trackIdsOf: string -> Option<set<string>>, listOf: set<string> -> seq<string>,
                                        trackOf: string -> Option<Track>)
    ensures var r := PreviewTotal(names, PreviewOne(genrePlaylists, cache, trackIdsOf, listOf, trackOf));
      r.Ok? ==> r.value <= SampleSize * |names|
  {
    if names != [] {
      PreviewBound(names[..|names| - 1], genrePlaylists, cache, trackIdsOf, listOf, trackOf);
    }
  }

  /** Once the preview has failed, it stays failed. */
  lemma {:induction false} PreviewAbortStays(names: seq<string>, k: nat, one: string -> Option<nat>)
    requires k <= |names| && PreviewTotal(names[..k], one).Err?
    ensures PreviewTotal(names, one) == PreviewTotal(names[..k], one)
    decreases |names| - k
  {
    if k < |names| {
      assert names[..k + 1][..k] == names[..k];
      PreviewAbortStays(names, k + 1, one);
    } else {
      assert names[..k] == names;
    }
  }

  lemma PreviewStep(names: seq<string>, k: nat, one: string -> Option<nat>, total: nat, n: nat)
    requires k < |names| && PreviewTotal(names[..k], one) == Ok(total) && one(names[k]) == Some(n)
    ensures PreviewTotal(names[..k + 1], one) == Ok(total + n)
  {
    assert names[..k + 1][..k] == names[..k];
  }

  lemma PreviewFailStep(names: seq<string>, k: nat, one: string -> Option<nat>, total: nat)
    requires k < |names| && PreviewTotal(names[..k], one) == Ok(total) && one(names[k]).None?
    ensures PreviewTotal(names, one) == Err(ReadFailed)
  {
    assert names[..k + 1][..k] == names[..k];
    PreviewAbortStays(names, k + 1, one);
  }

  /** The body of the preview loop for one genre playlist. */
  method PreviewPlaylist(name: string, genrePlaylists: map<string, string>, cache: Cache,
                         trackIdsOf: string -> Option<set<string>>, listOf: set<string> -> seq<string>,
                         trackOf: string -> Option<Track>)
    returns (r: Option<nat>)
    ensures r == PreviewOf(name, genrePlaylists, cache, trackIdsOf, listOf, trackOf)
  {
    if name !in genrePlaylists {
      return Some(0);
    }
    var playlistGenre := GetPlaylistGenre(name);
    var allTrackIds := trackIdsOf(genrePlaylists[name]);
    if allTrackIds.None? {
      return None;
    }
    var n := CountIncorrect(Sample(listOf(allTrackIds.value)), trackOf, cache, playlistGenre);
    return Some(n);
  }

  /** The preview loop over the genre playlists, in the order listed. */
  method PreviewEach(names: seq<string>, genrePlaylists: map<string, string>, cache: Cache,
                     trackIdsOf: string -> Option<set<string>>, listOf: set<string> -> seq<string>,
                     trackOf: string -> Option<Track>)
    returns (r: Result<nat>)
    ensures r == PreviewTotal(names, PreviewOne(genrePlaylists, cache, trackIdsOf, listOf, trackOf))
  {
    ghost var one := PreviewOne(genrePlaylists, cache, trackIdsOf, listOf, trackOf);
    var totalIncorrectTracks: nat := 0;
    for k: nat := 0 to |names|
      invariant PreviewTotal(names[..k], one) == Ok(totalIncorrectTracks)
    {
      var n := PreviewPlaylist(names[k], genrePlaylists, cache, trackIdsOf, listOf, trackOf);
      if n.None? {
        PreviewFailStep(names, k, one, totalIncorrectTracks);
        return Err(ReadFailed);
      }
      PreviewStep(names, k, one, totalIncorrectTracks, n.value);
      totalIncorrectTracks := totalIncorrectTracks + n.value;
    }
    assert names[..|names|] == names;
    return Ok(totalIncorrectTracks);
  }

  /** `preview_cleanup`: the genre playlists previewed in the order listed; nothing is written. */
  method PreviewCleanup(existing: map<string, string>, cache: Cache, trackIdsOf: string -> Option<set<string>>,
                        listOf: set<string> -> seq<string>, trackOf: string -> Option<Track>)
    returns (r: Result<nat>)
    ensures var genrePlaylists := GenrePlaylists(existing);
      r == PreviewTotal(listOf(genrePlaylists.Keys), PreviewOne(genrePlaylists, cache, trackIdsOf, listOf, trackOf))
  {
    var genrePlaylists := IdentifyGenrePlaylists(existing);
    r := PreviewEach(listOf(genrePlaylists.Keys), genrePlaylists, cache, trackIdsOf, listOf, trackOf);
  }
}
