/**
 * Add_Brazilian_Songs.py: the cached Brazilian artists, the tracks of the
 * source playlist credited to one of them, and the adds that copy those
 * tracks into the playlist named "Brazilian Music", in slices of 50 with a
 * track-by-track retry of a slice that failed. Which catalog call raises is
 * the parameter `fails`; the order `list(set)` gives is `listOf`.
 */
module BrazilianSongs {
  import opened Wrappers
  import opened Text
  import opened Lists
  import opened Records
  import opened GenreNormalize
  import opened PlaylistWrites
  import opened Sorting
  import GenreExamples

  /**
   * `'Brazilian Music' in normalized_genres or 'brazilian music' in normalized_genres`,
   * with `norm` the normalizer (`Normalized` in a run of the script).
   */
  predicate BrazilianLabel(genre: string, norm: string -> seq<string>)
  {
    "Brazilian Music" in norm(genre) || "brazilian music" in norm(genre)
  }

  /** `country and 'Brazil' in country`. */
  predicate BrazilianCountry(country: Option<string>)
  {
    country.Some? && country.value != "" && Contains(country.value, "Brazil")
  }

  function BrazilianTest(norm: string -> seq<string>): string -> bool
  {
    g => BrazilianLabel(g, norm)
  }

  /** An artist `get_brazilian_artists` keeps: a genre labelled Brazilian, or a Brazilian country. */
  predicate IsBrazilian(r: Record, norm: string -> seq<string>)
  {
    AnyBack(r.genres, BrazilianTest(norm)) || BrazilianCountry(r.Country())
  }

  /** An artist is Brazilian exactly when one of its genres has a Brazilian label, or its country names Brazil. */
  lemma IsBrazilianMeaning(r: Record, norm: string -> seq<string>)
    ensures IsBrazilian(r, norm) <==>
      (exists k :: 0 <= k < |r.genres| && BrazilianLabel(r.genres[k], norm)) ||
      (r.Country().Some? && r.Country().value != "" && Contains(r.Country().value, "Brazil"))
  {
    AnyBackIndex(r.genres, BrazilianTest(norm));
  }

  /** The ids `get_brazilian_artists` returns. */
  function BrazilianArtists(cache: Cache, norm: string -> seq<string>): (r: set<string>)
    ensures forall a :: a in r <==> a in cache && IsBrazilian(cache[a], norm)
  {
    set a | a in cache && IsBrazilian(cache[a], norm)
  }

  /** One genre's test in the inner loop. */
  method HasBrazilianLabel(genre: string) returns (b: bool)
    ensures b == BrazilianTest(Normalized)(genre)
  {
    var normalizedGenres := Normalized(genre);
    b := "Brazilian Music" in normalizedGenres || "brazilian music" in normalizedGenres;
  }

  /** The inner loop over the artist's genres, which stops at the first Brazilian label. */
  method HasBrazilianGenre(genres: seq<string>) returns (b: bool)
    ensures b == AnyBack(genres, BrazilianTest(Normalized))
  {
    b := false;
    for i: nat := 0 to |genres|
      invariant !AnyBack(genres[..i], BrazilianTest(Normalized))
    {
      assert genres[..i + 1][..i] == genres[..i];
      var hit := HasBrazilianLabel(genres[i]);
      if hit {
        AnyBackPrefix(genres, i + 1, BrazilianTest(Normalized));
        return true;
      }
    }
    assert genres[..|genres|] == genres;
  }

  /** `get_brazilian_artists`: the loop over the cache. */
  method GetBrazilianArtists(artistCache: Cache) returns (brazilianArtists: set<string>)
    ensures brazilianArtists == BrazilianArtists(artistCache, Normalized)
  {
    brazilianArtists := {};
    var rest, done := artistCache.Keys, {};
    while rest != {}
      invariant done + rest == artistCache.Keys && done * rest == {}
      invariant forall a :: a in brazilianArtists <==> a in done && IsBrazilian(artistCache[a], Normalized)
      decreases rest
    {
      var artistId :| artistId in rest;
      var data := artistCache[artistId];
      var byGenre := HasBrazilianGenre(data.genres);
      if byGenre {
        brazilianArtists := brazilianArtists + {artistId};
      }
      var country := data.Country();
      if country.Some? && country.value != "" && Contains(country.value, "Brazil") {
        brazilianArtists := brazilianArtists + {artistId};
      }
      done, rest := done + {artistId}, rest - {artistId};
    }
    assert brazilianArtists == BrazilianArtists(artistCache, Normalized);
  }

  /**
   * `normalize_genre` drops the tag "Brazilian Music" itself, so an artist
   * tagged only with it and with no country is not found.
   */
  lemma LoneRegionalTagMissed(r: Record)
    requires r.genres == ["Brazilian Music"] && r.country.Absent?
    ensures !IsBrazilian(r, Normalized)
  {
    GenreExamples.BrazilianMusic(r.genres[0]);
    LoneUnlabelledTag(r, Normalized);
  }

  lemma LoneUnlabelledTag(r: Record, norm: string -> seq<string>)
    requires |r.genres| == 1 && norm(r.genres[0]) == [] && r.country.Absent?
    ensures !IsBrazilian(r, norm)
  {
    var p := BrazilianTest(norm);
    assert r.genres[..0] == [];
    assert !AnyBack(r.genres[..0], p);
    assert !p(r.genres[0]);
    assert !AnyBack(r.genres, p);
    assert r.Country().None?;
  }

  /** `any(artist_id in artist_ids for artist_id in track_artists)` for a non-null track. */
  predicate Credited(item: Item, artistIds: set<string>)
  {
    item.Some? && exists j :: 0 <= j < |item.value.artists| && item.value.artists[j] in artistIds
  }

  /** The ids `get_tracks_by_artists` collects from `items`. */
  function MatchingTracks(items: seq<Item>, artistIds: set<string>): set<string>
  {
    if items == [] then {}
    else
      var last := items[|items| - 1];
      MatchingTracks(items[..|items| - 1], artistIds) + if Credited(last, artistIds) then {last.value.id} else {}
  }

  /** A track is selected exactly when it is not null and some credited artist is in the set. */
  lemma {:induction false} MatchingTracksMeaning(items: seq<Item>, artistIds: set<string>, t: string)
    ensures t in MatchingTracks(items, artistIds) <==>
      exists k :: 0 <= k < |items| && Credited(items[k], artistIds) && items[k].value.id == t
  {
    if items != [] {
      var n := |items| - 1;
      var front := items[..n];
      MatchingTracksMeaning(front, artistIds, t);
      if t in MatchingTracks(front, artistIds) {
        var k :| 0 <= k < |front| && Credited(front[k], artistIds) && front[k].value.id == t;
        assert items[k] == front[k];
      }
      if exists k :: 0 <= k < |items| && Credited(items[k], artistIds) && items[k].value.id == t {
        var k :| 0 <= k < |items| && Credited(items[k], artistIds) && items[k].value.id == t;
        if k < n {
          assert front[k] == items[k];
        }
      }
    }
  }

  /** Only the non-null tracks' ids are ever collected. */
  lemma MatchingTracksAreTracks(items: seq<Item>, artistIds: set<string>)
    ensures MatchingTracks(items, artistIds) <= TrackIdSet(items)
  {
    forall t | t in MatchingTracks(items, artistIds) ensures t in TrackIdSet(items) {
      MatchingTracksMeaning(items, artistIds, t);
    }
  }

  /** `get_tracks_by_artists`, the playlist's items given. */
  method GetTracksByArtists(tracks: seq<Item>, artistIds: set<string>) returns (matchingTrackIds: set<string>)
    ensures matchingTrackIds == MatchingTracks(tracks, artistIds)
  {
    matchingTrackIds := {};
    for i: nat := 0 to |tracks|
      invariant matchingTrackIds == MatchingTracks(tracks[..i], artistIds)
    {
      assert tracks[..i + 1][..i] == tracks[..i];
      var track := tracks[i];
      if track.Some? {
        var trackArtists := track.value.artists;
        if exists j :: 0 <= j < |trackArtists| && trackArtists[j] in artistIds {
          matchingTrackIds := matchingTrackIds + {track.value.id};
        }
      }
    }
    assert tracks[..|tracks|] == tracks;
  }

  // ----- add_tracks_to_playlist -----

  /** The calls made, in order, and the tracks whose add returned normally (`added_count` is its length). */
  datatype AddRun = AddRun(calls: seq<Call>, added: seq<string>)

  /** A single-track add that returns normally. */
  function SingleAdds(playlist: string, fails: Call -> bool): string -> bool
  {
    x => !fails(AddItems(playlist, [x]))
  }

  /** The retry of a failed slice: `sp.playlist_add_items(playlist_id, [track_id])` for each of its tracks. */
  function Singles(playlist: string, batch: seq<string>, fails: Call -> bool): AddRun
  {
    if batch == [] then AddRun([], [])
    else
      var c := AddItems(playlist, [batch[0]]);
      var rest := Singles(playlist, batch[1..], fails);
      if fails(c) then AddRun([c] + rest.calls, rest.added)
      else AddRun([c, Wait] + rest.calls, [batch[0]] + rest.added)
  }

  /** The slices of 50 from `i` on, each tried whole and, when that raises, track by track. */
  function Batches(playlist: string, ids: seq<string>, i: nat, fails: Call -> bool): AddRun
    decreases |ids| - i
  {
    if i >= |ids| then AddRun([], [])
    else
      var batch := ids[i..SliceEnd(|ids|, i)];
      var c := AddItems(playlist, batch);
      var head := if fails(c) then var one := Singles(playlist, batch, fails); AddRun([c] + one.calls, one.added)
                  else AddRun([c, Wait], batch);
      var rest := Batches(playlist, ids, SliceEnd(|ids|, i), fails);
      AddRun(head.calls + rest.calls, head.added + rest.added)
  }

  /**
   * `add_tracks_to_playlist`: nothing for no tracks; otherwise the tracks
   * already in the playlist are read, and only the others are sent, in the
   * order `listOf` lists them. The read (`get_playlist_track_ids`) is not
   * guarded: when it raises, so does the function, the read being the only
   * call made.
   */
  function AddTracks(playlist: string, trackIds: set<string>, tracksOf: string -> set<string>,
                     listOf: set<string> -> seq<string>, fails: Call -> bool): Result<AddRun>
  {
    if trackIds == {} then Ok(AddRun([], []))
    else if fails(ReadTracks(playlist)) then Err(ReadFailed)
    else
      var newTrackIds := trackIds - tracksOf(playlist);
      if newTrackIds == {} then Ok(AddRun([ReadTracks(playlist)], []))
      else
        var sent := Batches(playlist, listOf(newTrackIds), 0, fails);
        Ok(AddRun([ReadTracks(playlist)] + sent.calls, sent.added))
  }

  /** The message of a playlist read that raised. */
  const ReadFailed := "playlist read raised"

  /** An add of `playlist`, or a wait. */
  predicate AddsTo(c: Call, playlist: string)
  {
    c == Wait || (c.AddItems? && c.playlist == playlist && 0 < |c.chunk| <= ChunkSize)
  }

  /** The tracks a list of calls tries to add to `playlist`, call by call. */
  function Tried(calls: seq<Call>, playlist: string): set<string>
  {
    if calls == [] then {}
    else (if calls[0].AddItems? && calls[0].playlist == playlist then Elems(calls[0].chunk) else {}) +
         Tried(calls[1..], playlist)
  }

  lemma {:induction false} TriedAppend(a: seq<Call>, b: seq<Call>, playlist: string)
    ensures Tried(a + b, playlist) == Tried(a, playlist) + Tried(b, playlist)
  {
    if a == [] {
      assert a + b == b;
    } else {
      assert (a + b)[1..] == a[1..] + b;
      TriedAppend(a[1..], b, playlist);
    }
  }

  lemma TriedOne(c: Call, playlist: string)
    requires c.AddItems? && c.playlist == playlist
    ensures Tried([c], playlist) == Elems(c.chunk)
    ensures Tried([c, Wait], playlist) == Elems(c.chunk)
  {
    assert [c][1..] == [];
    assert [c, Wait][1..] == [Wait];
    assert [Wait][1..] == [];
  }

  /** `Tried` is `AddedTo`, collected one call at a time. */
  lemma {:induction false} TriedIsAddedTo(calls: seq<Call>, playlist: string)
    ensures Tried(calls, playlist) == AddedTo(calls, playlist)
  {
    if calls == [] {
      AddedToNone(calls, playlist);
    } else {
      var c := calls[0];
      TriedIsAddedTo(calls[1..], playlist);
      assert calls == [c] + calls[1..];
      AddedToAppend([c], calls[1..], playlist);
      if c.AddItems? && c.playlist == playlist {
        AddedToOne(c, Wait, playlist);
      } else {
        assert AddedTo([c], playlist) == {};
      }
    }
  }

  /** The tracks the retry counts are exactly those whose single add returned normally. */
  lemma {:induction false} SinglesAdded(playlist: string, batch: seq<string>, fails: Call -> bool)
    ensures Singles(playlist, batch, fails).added == Filter(batch, SingleAdds(playlist, fails))
  {
    if batch != [] {
      var p := SingleAdds(playlist, fails);
      var rest := Singles(playlist, batch[1..], fails);
      SinglesAdded(playlist, batch[1..], fails);
      assert Filter(batch, p) == (if p(batch[0]) then [batch[0]] else []) + Filter(batch[1..], p);
      if fails(AddItems(playlist, [batch[0]])) {
        assert !p(batch[0]);
        assert Singles(playlist, batch, fails).added == rest.added;
      } else {
        assert p(batch[0]);
        assert Singles(playlist, batch, fails).added == [batch[0]] + rest.added;
      }
    }
  }

  /** The retry tries every track of the slice once, alone, at `playlist`. */
  lemma {:induction false} SinglesTried(playlist: string, batch: seq<string>, fails: Call -> bool)
    ensures var r := Singles(playlist, batch, fails);
      Tried(r.calls, playlist) == Elems(batch) &&
      forall k :: 0 <= k < |r.calls| ==> AddsTo(r.calls[k], playlist)
  {
    var r := Singles(playlist, batch, fails);
    if batch != [] {
      var c := AddItems(playlist, [batch[0]]);
      var rest := Singles(playlist, batch[1..], fails);
      SinglesTried(playlist, batch[1..], fails);
      var head := if fails(c) then [c] else [c, Wait];
      assert r.calls == head + rest.calls;
      TriedAppend(head, rest.calls, playlist);
      TriedOne(c, playlist);
      assert Elems([batch[0]]) == {batch[0]};
      ElemsFront(batch);
      forall k | 0 <= k < |r.calls| ensures AddsTo(r.calls[k], playlist) {
        if k >= |head| {
          assert r.calls[k] == rest.calls[k - |head|];
        }
      }
    }
  }

  lemma ElemsFront(s: seq<string>)
    requires s != []
    ensures Elems(s) == {s[0]} + Elems(s[1..])
  {
    forall x | x in s ensures x == s[0] || x in s[1..] {
      var k :| 0 <= k < |s| && s[k] == x;
      if k > 0 {
        assert s[1..][k - 1] == x;
      }
    }
  }

  /** The first slice from `i` on: its calls and the tracks it counts. */
  function Head(playlist: string, ids: seq<string>, i: nat, fails: Call -> bool): AddRun
    requires i < |ids|
  {
    var batch := ids[i..SliceEnd(|ids|, i)];
    var c := AddItems(playlist, batch);
    if fails(c) then var one := Singles(playlist, batch, fails); AddRun([c] + one.calls, one.added)
    else AddRun([c, Wait], batch)
  }

  lemma BatchesUnfold(playlist: string, ids: seq<string>, i: nat, fails: Call -> bool)
    requires i < |ids|
    ensures var head := Head(playlist, ids, i, fails);
      var rest := Batches(playlist, ids, SliceEnd(|ids|, i), fails);
      Batches(playlist, ids, i, fails) == AddRun(head.calls + rest.calls, head.added + rest.added)
  {
  }

  /** The first slice is tried whole or track by track, at `playlist`, in adds of at most 50. */
  lemma HeadTried(playlist: string, ids: seq<string>, i: nat, fails: Call -> bool)
    requires i < |ids|
    ensures var head := Head(playlist, ids, i, fails);
      Tried(head.calls, playlist) == Elems(ids[i..SliceEnd(|ids|, i)]) &&
      forall k :: 0 <= k < |head.calls| ==> AddsTo(head.calls[k], playlist)
  {
    var batch := ids[i..SliceEnd(|ids|, i)];
    var c := AddItems(playlist, batch);
    var head := Head(playlist, ids, i, fails);
    TriedOne(c, playlist);
    if fails(c) {
      var one := Singles(playlist, batch, fails);
      SinglesTried(playlist, batch, fails);
      TriedAppend([c], one.calls, playlist);
      forall k | 0 <= k < |head.calls| ensures AddsTo(head.calls[k], playlist) {
        if k > 0 {
          assert head.calls[k] == one.calls[k - 1];
        }
      }
    }
  }

  /** The first slice counts only its own tracks. */
  lemma HeadAdded(playlist: string, ids: seq<string>, i: nat, fails: Call -> bool)
    requires i < |ids|
    ensures var head := Head(playlist, ids, i, fails);
      (forall x :: x in head.added ==> x in ids[i..SliceEnd(|ids|, i)]) &&
      |head.added| <= SliceEnd(|ids|, i) - i
  {
    var batch := ids[i..SliceEnd(|ids|, i)];
    if fails(AddItems(playlist, batch)) {
      SinglesAdded(playlist, batch, fails);
      FilterBound(batch, SingleAdds(playlist, fails));
    }
  }

  lemma SplitAt(ids: seq<string>, i: nat, end: nat)
    requires i <= end <= |ids|
    ensures ids[i..] == ids[i..end] + ids[end..]
    ensures Elems(ids[i..]) == Elems(ids[i..end]) + Elems(ids[end..])
  {
    assert ids[i..] == ids[i..end] + ids[end..];
    forall x | x in ids[i..] ensures x in ids[i..end] || x in ids[end..] {
      var k :| 0 <= k < |ids[i..]| && ids[i..][k] == x;
      if k < end - i {
        assert ids[i..end][k] == x;
      } else {
        assert ids[end..][k - (end - i)] == x;
      }
    }
  }

  /** Every track of `ids[i..]` is tried, and every add goes to `playlist` with at most 50 tracks. */
  lemma {:induction false} BatchesTried(playlist: string, ids: seq<string>, i: nat, fails: Call -> bool)
    requires i <= |ids|
    ensures var r := Batches(playlist, ids, i, fails);
      Tried(r.calls, playlist) == Elems(ids[i..]) &&
      forall k :: 0 <= k < |r.calls| ==> AddsTo(r.calls[k], playlist)
    decreases |ids| - i
  {
    var r := Batches(playlist, ids, i, fails);
    if i < |ids| {
      var end := SliceEnd(|ids|, i);
      var head := Head(playlist, ids, i, fails);
      var rest := Batches(playlist, ids, end, fails);
      BatchesUnfold(playlist, ids, i, fails);
      BatchesTried(playlist, ids, end, fails);
      HeadTried(playlist, ids, i, fails);
      TriedAppend(head.calls, rest.calls, playlist);
      SplitAt(ids, i, end);
      forall k | 0 <= k < |r.calls| ensures AddsTo(r.calls[k], playlist) {
        if k >= |head.calls| {
          assert r.calls[k] == rest.calls[k - |head.calls|];
        } else {
          assert r.calls[k] == head.calls[k];
        }
      }
    } else {
      assert ids[i..] == [];
    }
  }

  /** The tracks counted are among those of `ids[i..]`, so there are at most as many as tracks. */
  lemma {:induction false} BatchesAdded(playlist: string, ids: seq<string>, i: nat, fails: Call -> bool)
    requires i <= |ids|
    ensures var r := Batches(playlist, ids, i, fails);
      (forall x :: x in r.added ==> x in ids[i..]) && |r.added| <= |ids| - i
    decreases |ids| - i
  {
    if i < |ids| {
      var end := SliceEnd(|ids|, i);
      var head := Head(playlist, ids, i, fails);
      var rest := Batches(playlist, ids, end, fails);
      BatchesUnfold(playlist, ids, i, fails);
      BatchesAdded(playlist, ids, end, fails);
      HeadAdded(playlist, ids, i, fails);
      SplitAt(ids, i, end);
    }
  }

  lemma {:induction false} FilterBound<T>(s: seq<T>, p: T -> bool)
    ensures |Filter(s, p)| <= |s|
    ensures forall x :: x in Filter(s, p) ==> x in s
  {
    if s != [] {
      FilterBound(s[1..], p);
    }
  }

  /** With no add raising, every track of `ids[i..]` is counted, in order, in slices of 50. */
  lemma {:induction false} BatchesNeverFail(playlist: string, ids: seq<string>, i: nat, fails: Call -> bool)
    requires i <= |ids| && forall c :: !fails(c)
    ensures Batches(playlist, ids, i, fails).added == ids[i..]
    decreases |ids| - i
  {
    if i < |ids| {
      var end := SliceEnd(|ids|, i);
      BatchesNeverFail(playlist, ids, end, fails);
      assert ids[i..] == ids[i..end] + ids[end..];
    }
  }

  /** With every add raising, nothing is counted. */
  lemma {:induction false} BatchesAlwaysFail(playlist: string, ids: seq<string>, i: nat, fails: Call -> bool)
    requires i <= |ids| && forall c :: fails(c)
    ensures Batches(playlist, ids, i, fails).added == []
    decreases |ids| - i
  {
    if i < |ids| {
      var end := SliceEnd(|ids|, i);
      BatchesAlwaysFail(playlist, ids, end, fails);
      SinglesAlwaysFail(playlist, ids[i..end], fails);
    }
  }

  lemma {:induction false} SinglesAlwaysFail(playlist: string, batch: seq<string>, fails: Call -> bool)
    requires forall c :: fails(c)
    ensures Singles(playlist, batch, fails).added == []
  {
    if batch != [] {
      SinglesAlwaysFail(playlist, batch[1..], fails);
      assert fails(AddItems(playlist, [batch[0]]));
    }
  }

  /**
   * Only tracks not yet in the playlist are sent, each of them is tried, and
   * `added_count` is at most their number. No tracks: no call at all; no new
   * tracks: the read, and no add.
   */
  lemma AddTracksMeaning(playlist: string, trackIds: set<string>, tracksOf: string -> set<string>,
                         listOf: set<string> -> seq<string>, fails: Call -> bool)
    requires Enumerates(listOf) && ListsOnce(listOf)
    ensures AddTracks(playlist, trackIds, tracksOf, listOf, fails).Err? <==>
      trackIds != {} && fails(ReadTracks(playlist))
    ensures var o := AddTracks(playlist, trackIds, tracksOf, listOf, fails);
      o.Ok? ==>
      var r := o.value;
      var newTrackIds := trackIds - tracksOf(playlist);
      (trackIds == {} ==> r.calls == [] && r.added == []) &&
      (newTrackIds == {} ==> r.added == []) &&
      AddedTo(r.calls, playlist) == newTrackIds &&
      (forall x :: x in r.added ==> x in newTrackIds) &&
      |r.added| <= |newTrackIds|
  {
    var o := AddTracks(playlist, trackIds, tracksOf, listOf, fails);
    if o.Err? {
      return;
    }
    var r := o.value;
    var newTrackIds := trackIds - tracksOf(playlist);
    TriedIsAddedTo(r.calls, playlist);
    if trackIds != {} && newTrackIds != {} {
      var ids := listOf(newTrackIds);
      assert Elems(ids) == newTrackIds && Distinct(ids);
      var sent := Batches(playlist, ids, 0, fails);
      BatchesTried(playlist, ids, 0, fails);
      BatchesAdded(playlist, ids, 0, fails);
      assert ids[0..] == ids;
      DistinctCard(ids);
      TriedAppend([ReadTracks(playlist)], sent.calls, playlist);
      assert [ReadTracks(playlist)][1..] == [];
    } else if trackIds != {} {
      assert [ReadTracks(playlist)][1..] == [];
    }
  }

  /** When no add raises, every new track is counted once. */
  lemma AddTracksNeverFail(playlist: string, trackIds: set<string>, tracksOf: string -> set<string>,
                           listOf: set<string> -> seq<string>, fails: Call -> bool)
    requires Enumerates(listOf) && ListsOnce(listOf) && forall c :: !fails(c)
    ensures var r := AddTracks(playlist, trackIds, tracksOf, listOf, fails);
      r.Ok? && Elems(r.value.added) == trackIds - tracksOf(playlist) && |r.value.added| == |trackIds - tracksOf(playlist)|
  {
    var newTrackIds := trackIds - tracksOf(playlist);
    if trackIds != {} && newTrackIds != {} {
      var ids := listOf(newTrackIds);
      assert Elems(ids) == newTrackIds && Distinct(ids);
      BatchesNeverFail(playlist, ids, 0, fails);
      assert ids[0..] == ids;
      DistinctCard(ids);
    }
  }

  /** The retry loop over a failed slice. */
  method AddSingles(playlist: string, batch: seq<string>, fails: Call -> bool) returns (r: AddRun)
    ensures r == Singles(playlist, batch, fails)
  {
    var calls: seq<Call> := [];
    var added: seq<string> := [];
    for j: nat := 0 to |batch|
      invariant calls + Singles(playlist, batch[j..], fails).calls == Singles(playlist, batch, fails).calls
      invariant added + Singles(playlist, batch[j..], fails).added == Singles(playlist, batch, fails).added
    {
      assert batch[j..][1..] == batch[j + 1..];
      var trackId := batch[j];
      var c := AddItems(playlist, [trackId]);
      if fails(c) {
        calls := calls + [c];
      } else {
        calls := calls + [c, Wait];
        added := added + [trackId];
      }
    }
    assert batch[|batch|..] == [];
    r := AddRun(calls, added);
  }

  /** One pass of the slice loop: the slice whole and, when that raises, track by track. */
  method AddBatch(playlist: string, ids: seq<string>, i: nat, fails: Call -> bool) returns (head: AddRun)
    requires i < |ids|
    ensures head == Head(playlist, ids, i, fails)
  {
    var batch := ids[i..SliceEnd(|ids|, i)];
    var c := AddItems(playlist, batch);
    if !fails(c) {
      head := AddRun([c, Wait], batch);
    } else {
      var one := AddSingles(playlist, batch, fails);
      head := AddRun([c] + one.calls, one.added);
    }
  }

  /**
   * `add_tracks_to_playlist`: the count it returns, or the error its
   * playlist read raises, and the calls it makes.
   */
  method AddTracksToPlaylist(playlist: string, trackIds: set<string>, tracksOf: string -> set<string>,
                             listOf: set<string> -> seq<string>, fails: Call -> bool)
    returns (addedCount: Result<nat>, calls: seq<Call>)
    ensures addedCount.Err? <==> AddTracks(playlist, trackIds, tracksOf, listOf, fails).Err?
    ensures addedCount.Err? ==> calls == [ReadTracks(playlist)]
    ensures addedCount.Ok? ==> addedCount.value == |AddTracks(playlist, trackIds, tracksOf, listOf, fails).value.added|
    ensures addedCount.Ok? ==> calls == AddTracks(playlist, trackIds, tracksOf, listOf, fails).value.calls
  {
    if trackIds == {} {
      return Ok(0), [];
    }
    calls := [ReadTracks(playlist)];
    if fails(ReadTracks(playlist)) {
      return Err(ReadFailed), calls;
    }
    var existingTracks := tracksOf(playlist);
    var newTrackIds := trackIds - existingTracks;
    if newTrackIds == {} {
      return Ok(0), calls;
    }
    var trackIdsList := listOf(newTrackIds);
    ghost var total := Batches(playlist, trackIdsList, 0, fails);
    var count: nat := 0;
    var i := 0;
    while i < |trackIdsList|
      invariant i <= |trackIdsList|
      invariant calls + Batches(playlist, trackIdsList, i, fails).calls == [ReadTracks(playlist)] + total.calls
      invariant count + |Batches(playlist, trackIdsList, i, fails).added| == |total.added|
      decreases |trackIdsList| - i
    {
      BatchesUnfold(playlist, trackIdsList, i, fails);
      var head := AddBatch(playlist, trackIdsList, i, fails);
      ghost var rest := Batches(playlist, trackIdsList, SliceEnd(|trackIdsList|, i), fails);
      assert calls + (head.calls + rest.calls) == (calls + head.calls) + rest.calls;
      calls := calls + head.calls;
      count := count + |head.added|;
      i := SliceEnd(|trackIdsList|, i);
    }
    addedCount := Ok(count);
  }

  // ----- main -----

  /** `name.lower() == 'brazilian music'`. */
  const TargetName := "brazilian music"

  /** The first name of `names` whose lower case is the target, as the `for ... break` over `existing_playlists.items()` finds it. */
  function FirstNamed(names: seq<string>, existing: map<string, string>): Option<string>
    requires forall k :: 0 <= k < |names| ==> names[k] in existing
  {
    if names == [] then None
    else if Lower(names[0]) == TargetName then Some(existing[names[0]])
    else FirstNamed(names[1..], existing)
  }

  /** Nothing is found exactly when no name matches; a hit is the id of the first matching name. */
  lemma {:induction false} FirstNamedMeaning(names: seq<string>, existing: map<string, string>)
    requires forall k :: 0 <= k < |names| ==> names[k] in existing
    ensures FirstNamed(names, existing).None? <==> forall k :: 0 <= k < |names| ==> Lower(names[k]) != TargetName
    ensures FirstNamed(names, existing).Some? ==>
      exists k :: 0 <= k < |names| && Lower(names[k]) == TargetName &&
        existing[names[k]] == FirstNamed(names, existing).value &&
        forall j :: 0 <= j < k ==> Lower(names[j]) != TargetName
  {
    if names != [] && Lower(names[0]) != TargetName {
      var tail := names[1..];
      FirstNamedMeaning(tail, existing);
      if FirstNamed(tail, existing).Some? {
        var k :| 0 <= k < |tail| && Lower(tail[k]) == TargetName &&
          existing[tail[k]] == FirstNamed(tail, existing).value &&
          forall j :: 0 <= j < k ==> Lower(tail[j]) != TargetName;
        assert names[k + 1] == tail[k];
        forall j | 0 <= j < k + 1 ensures Lower(names[j]) != TargetName {
          if j > 0 {
            assert names[j] == tail[j - 1];
          }
        }
      } else {
        forall k | 0 <= k < |names| ensures Lower(names[k]) != TargetName {
          if k > 0 {
            assert names[k] == tail[k - 1];
          }
        }
      }
    }
  }

  /** The playlist `main` uses: the first match, unless its id is empty (`if not brazilian_playlist_id`). */
  function BrazilianPlaylist(existing: map<string, string>, names: seq<string>): (r: Option<string>)
    requires forall k :: 0 <= k < |names| ==> names[k] in existing
    ensures r.Some? ==> r.value != ""
  {
    match FirstNamed(names, existing)
      case None => None
      case Some(id) => if id == "" then None else Some(id)
  }

  /** The search loop of `main`. */
  method FindBrazilianPlaylist(existing: map<string, string>, names: seq<string>) returns (r: Option<string>)
    requires forall k :: 0 <= k < |names| ==> names[k] in existing
    ensures r == BrazilianPlaylist(existing, names)
  {
    var brazilianPlaylistId := None;
    for i: nat := 0 to |names|
      invariant FirstNamed(names[i..], existing) == FirstNamed(names, existing)
    {
      assert names[i..][1..] == names[i + 1..];
      var name := names[i];
      if Lower(name) == TargetName {
        brazilianPlaylistId := Some(existing[name]);
        break;
      }
    }
    if brazilianPlaylistId.None? || brazilianPlaylistId.value == "" {
      return None;
    }
    return brazilianPlaylistId;
  }

  /**
   * How `main` ends: no Brazilian artist, no matching track, no target
   * playlist, the adds made to the target playlist with the count they
   * report (the calls include the final read of the playlist), or an
   * exception out of one of its unguarded reads, with the calls made before.
   */
  datatype Outcome =
    | NoArtists | NoTracks | NoPlaylist
    | Added(playlist: string, addedCount: nat, calls: seq<Call>)
    | Raised(calls: seq<Call>)

  /**
   * `main`, given the cache, the source playlist's items and the account's
   * playlists by name (each an error when its read raises), the tracks each
   * playlist holds, the order `list(set)` and dictionary iteration give,
   * which calls raise, and whether the closing read of the target playlist
   * raises.
   */
  function BrazilianRun(cache: Cache, items: Result<seq<Item>>, existing: Result<map<string, string>>,
                        tracksOf: string -> set<string>, listOf: set<string> -> seq<string>,
                        fails: Call -> bool, finalReadFails: bool): Outcome
    requires Enumerates(listOf)
  {
    RunFrom(BrazilianArtists(cache, Normalized), items, existing, tracksOf, listOf, fails, finalReadFails)
  }

  /** `main` once the Brazilian artists are known. */
  function RunFrom(artists: set<string>, items: Result<seq<Item>>, existing: Result<map<string, string>>,
                   tracksOf: string -> set<string>, listOf: set<string> -> seq<string>,
                   fails: Call -> bool, finalReadFails: bool): Outcome
    requires Enumerates(listOf)
  {
    if artists == {} then NoArtists
    else if items.Err? then Raised([])
    else
      var tracks := MatchingTracks(items.value, artists);
      if tracks == {} then NoTracks
      else if existing.Err? then Raised([])
      else
        assert Elems(listOf(existing.value.Keys)) == existing.value.Keys;
        match BrazilianPlaylist(existing.value, listOf(existing.value.Keys))
          case None => NoPlaylist
          case Some(playlist) =>
            match AddTracks(playlist, tracks, tracksOf, listOf, fails)
              case Err(_) => Raised([ReadTracks(playlist)])
              case Ok(r) =>
                if finalReadFails then Raised(r.calls + [ReadTracks(playlist)])
                else Added(playlist, |r.added|, r.calls + [ReadTracks(playlist)])
  }

  /** `main`: the Brazilian artists, their tracks, the playlist to use and the adds, or where it stopped. */
  method AddBrazilianSongs(cache: Cache, items: Result<seq<Item>>, existing: Result<map<string, string>>,
                           tracksOf: string -> set<string>, listOf: set<string> -> seq<string>,
                           fails: Call -> bool, finalReadFails: bool) returns (r: Outcome)
    requires Enumerates(listOf)
    ensures r == BrazilianRun(cache, items, existing, tracksOf, listOf, fails, finalReadFails)
  {
    var brazilianArtists := GetBrazilianArtists(cache);
    if brazilianArtists == {} {
      return NoArtists;
    }
    if items.Err? {
      return Raised([]);
    }
    var brazilianTracks := GetTracksByArtists(items.value, brazilianArtists);
    if brazilianTracks == {} {
      return NoTracks;
    }
    if existing.Err? {
      return Raised([]);
    }
    var names := listOf(existing.value.Keys);
    assert Elems(names) == existing.value.Keys;
    var brazilianPlaylistId := FindBrazilianPlaylist(existing.value, names);
    if brazilianPlaylistId.None? {
      return NoPlaylist;
    }
    var playlist := brazilianPlaylistId.value;
    var addedCount, calls := AddTracksToPlaylist(playlist, brazilianTracks, tracksOf, listOf, fails);
    if addedCount.Err? {
      return Raised(calls);
    }
    if finalReadFails {
      return Raised(calls + [ReadTracks(playlist)]);
    }
    r := Added(playlist, addedCount.value, calls + [ReadTracks(playlist)]);
  }

  /** `k` is the first name whose lower case is the target. */
  predicate FirstMatchAt(names: seq<string>, k: int)
  {
    0 <= k < |names| && Lower(names[k]) == TargetName && forall j :: 0 <= j < k ==> Lower(names[j]) != TargetName
  }

  /**
   * A playlist is used exactly when the first name whose lower case is
   * "brazilian music" has a non-empty id, and it is that id; a later
   * matching name is never looked at.
   */
  lemma BrazilianPlaylistMeaning(existing: map<string, string>, names: seq<string>)
    requires forall k :: 0 <= k < |names| ==> names[k] in existing
    ensures BrazilianPlaylist(existing, names).Some? <==>
      exists k :: FirstMatchAt(names, k) && existing[names[k]] != ""
    ensures BrazilianPlaylist(existing, names).Some? ==>
      exists k :: FirstMatchAt(names, k) && existing[names[k]] == BrazilianPlaylist(existing, names).value
  {
    FirstNamedMeaning(names, existing);
    if exists k :: FirstMatchAt(names, k) && existing[names[k]] != "" {
      var k :| FirstMatchAt(names, k) && existing[names[k]] != "";
      if FirstNamed(names, existing).Some? {
        var j :| 0 <= j < |names| && Lower(names[j]) == TargetName &&
          existing[names[j]] == FirstNamed(names, existing).value &&
          forall i :: 0 <= i < j ==> Lower(names[i]) != TargetName;
        assert !(j < k) && !(k < j);
      }
    }
    if FirstNamed(names, existing).Some? {
      var j :| 0 <= j < |names| && Lower(names[j]) == TargetName &&
        existing[names[j]] == FirstNamed(names, existing).value &&
        forall i :: 0 <= i < j ==> Lower(names[i]) != TargetName;
      assert FirstMatchAt(names, j);
    }
  }

  /**
   * `main` makes no call when no artist or no track is found, or when
   * there is no playlist to use; it raises exactly when one of its reads
   * does: the source playlist's, the account's playlists', or one of the
   * target playlist's two.
   */
  lemma RunFromStops(artists: set<string>, items: Result<seq<Item>>, existing: Result<map<string, string>>,
                     tracksOf: string -> set<string>, listOf: set<string> -> seq<string>,
                     fails: Call -> bool, finalReadFails: bool)
    requires Enumerates(listOf)
    ensures var r := RunFrom(artists, items, existing, tracksOf, listOf, fails, finalReadFails);
      (r.NoArtists? <==> artists == {}) &&
      (r.NoTracks? <==> artists != {} && items.Ok? && MatchingTracks(items.value, artists) == {}) &&
      (r.Raised? && r.calls == [] <==>
        artists != {} && (items.Err? || (MatchingTracks(items.value, artists) != {} && existing.Err?)))
    ensures var r := RunFrom(artists, items, existing, tracksOf, listOf, fails, finalReadFails);
      r.NoPlaylist? <==>
        artists != {} && items.Ok? && MatchingTracks(items.value, artists) != {} && existing.Ok? &&
        Elems(listOf(existing.value.Keys)) == existing.value.Keys &&
        BrazilianPlaylist(existing.value, listOf(existing.value.Keys)).None?
    ensures var r := RunFrom(artists, items, existing, tracksOf, listOf, fails, finalReadFails);
      r.Raised? && r.calls != [] ==>
        artists != {} && items.Ok? && existing.Ok? &&
        Elems(listOf(existing.value.Keys)) == existing.value.Keys &&
        var p := BrazilianPlaylist(existing.value, listOf(existing.value.Keys));
        p.Some? && (fails(ReadTracks(p.value)) || finalReadFails) &&
        r.calls[|r.calls| - 1] == ReadTracks(p.value)
  {
    if existing.Ok? {
      assert Elems(listOf(existing.value.Keys)) == existing.value.Keys;
    }
  }

  /**
   * Otherwise every add goes to the playlist found, tries exactly the
   * matching tracks it does not hold yet, and counts at most that many.
   */
  lemma RunFromAdds(artists: set<string>, items: Result<seq<Item>>, existing: Result<map<string, string>>,
                    tracksOf: string -> set<string>, listOf: set<string> -> seq<string>,
                    fails: Call -> bool, finalReadFails: bool)
    requires Enumerates(listOf) && ListsOnce(listOf)
    ensures var r := RunFrom(artists, items, existing, tracksOf, listOf, fails, finalReadFails);
      r.Added? ==>
        items.Ok? && existing.Ok? && !finalReadFails && !fails(ReadTracks(r.playlist)) &&
        var tracks := MatchingTracks(items.value, artists);
        var names := listOf(existing.value.Keys);
        Elems(names) == existing.value.Keys &&
        Some(r.playlist) == BrazilianPlaylist(existing.value, names) &&
        AddedTo(r.calls, r.playlist) == tracks - tracksOf(r.playlist) &&
        r.addedCount <= |tracks - tracksOf(r.playlist)|
  {
    var r := RunFrom(artists, items, existing, tracksOf, listOf, fails, finalReadFails);
    if r.Added? {
      assert Elems(listOf(existing.value.Keys)) == existing.value.Keys;
      var tracks := MatchingTracks(items.value, artists);
      AddTracksMeaning(r.playlist, tracks, tracksOf, listOf, fails);
      AddTracksThenRead(r.playlist, tracks, tracksOf, listOf, fails);
    }
  }

  /** The final read of the playlist adds nothing. */
  lemma AddTracksThenRead(playlist: string, trackIds: set<string>, tracksOf: string -> set<string>,
                          listOf: set<string> -> seq<string>, fails: Call -> bool)
    requires Enumerates(listOf) && ListsOnce(listOf)
    ensures var run := AddTracks(playlist, trackIds, tracksOf, listOf, fails);
      run.Ok? ==>
      AddedTo(run.value.calls + [ReadTracks(playlist)], playlist) == trackIds - tracksOf(playlist) &&
      |run.value.added| <= |trackIds - tracksOf(playlist)|
  {
    var run := AddTracks(playlist, trackIds, tracksOf, listOf, fails);
    AddTracksMeaning(playlist, trackIds, tracksOf, listOf, fails);
    if run.Ok? {
      AddedToRead(run.value.calls, playlist);
    }
  }

  lemma AddedToRead(calls: seq<Call>, playlist: string)
    ensures AddedTo(calls + [ReadTracks(playlist)], playlist) == AddedTo(calls, playlist)
  {
    AddedToAppend(calls, [ReadTracks(playlist)], playlist);
    AddedToNone([ReadTracks(playlist)], playlist);
  }

  /**
   * `main` over the Brazilian artists of the cache: it stops with no
   * artists exactly when no cached artist is Brazilian, and when it adds,
   * what it adds is the matching tracks less those the playlist holds.
   * When no read and no add raises and a playlist is found, it adds.
   */
  lemma BrazilianRunMeaning(cache: Cache, items: Result<seq<Item>>, existing: Result<map<string, string>>,
                            tracksOf: string -> set<string>, listOf: set<string> -> seq<string>,
                            fails: Call -> bool, finalReadFails: bool)
    requires Enumerates(listOf) && ListsOnce(listOf)
    ensures var r := BrazilianRun(cache, items, existing, tracksOf, listOf, fails, finalReadFails);
      var artists := BrazilianArtists(cache, Normalized);
      (r.NoArtists? <==> artists == {}) &&
      (r.Added? ==> AddedTo(r.calls, r.playlist) == MatchingTracks(items.value, artists) - tracksOf(r.playlist))
    ensures var r := BrazilianRun(cache, items, existing, tracksOf, listOf, fails, finalReadFails);
      items.Ok? && existing.Ok? && !finalReadFails && (forall c :: !fails(c)) ==> !r.Raised?
  {
    var artists := BrazilianArtists(cache, Normalized);
    RunFromStops(artists, items, existing, tracksOf, listOf, fails, finalReadFails);
    RunFromAdds(artists, items, existing, tracksOf, listOf, fails, finalReadFails);
  }
}
