/**
 * The build pass of `create_genre_playlists_optimized` in
 * Playlist_Creator.py: the genres of at least 100 tracks become playlists
 * named `genre.title()`; a name already in the account is updated with the
 * tracks it lacks, any other is created and filled; tracks are sent in
 * slices of 50; an exception on one playlist is followed by a 5 second
 * pause and the pass goes on with the next.
 *
 * The Spotify calls, the pauses and the rate limiter's waits are recorded,
 * in order, as a list of calls. Which calls raise, the id Spotify gives a
 * new playlist and the order `list(set)` lists a set in are parameters
 * (an `Env`); the tracks already in each playlist are a map from playlist
 * id to track ids.
 */
module PlaylistWrites {
  import opened Text
  import opened Lists

  /** `if len(track_ids) < 100: continue`. */
  const MinTracks := 100
  /** `range(0, len(track_ids_list), 50)`. */
  const ChunkSize := 50
  /** `time.sleep(5)` after an error. */
  const ErrorPause := 5

  datatype Call =
    | CurrentUser                                 // sp.current_user()
    | CreatePlaylist(name: string)                // sp.user_playlist_create
    | ReadTracks(playlist: string)                // get_playlist_track_ids
    | AddItems(playlist: string, chunk: seq<string>) // sp.playlist_add_items
    | Wait                                        // rate_limiter.wait()
    | Sleep(seconds: nat)                         // time.sleep

  /**
   * What the pass cannot see: which calls raise, the id a new playlist gets,
   * the tracks `get_playlist_track_ids` reads from a playlist, and the order
   * `list(set)` lists a set in.
   */
  datatype Env = Env(fails: Call -> bool, newId: string -> string,
                     tracksOf: string -> set<string>, listOf: set<string> -> seq<string>)

  /** The calls made, and whether the pass returned normally (`ok`) or an exception escaped. */
  datatype Run = Run(calls: seq<Call>, ok: bool)

  /** One `(genre, track_ids)` of `genre_tracks.items()`. */
  datatype GenreEntry = GenreEntry(genre: string, tracks: set<string>)

  /** One `(playlist_name, track_ids)` of `playlists_to_create`. */
  datatype NewPlaylist = NewPlaylist(name: string, tracks: set<string>)

  /** One `(playlist_name, playlist_id, track_ids)` of `playlists_to_update`. */
  datatype Update = Update(name: string, playlist: string, tracks: set<string>)

  /** No call raises. */
  ghost predicate NeverFails(env: Env)
  {
    forall c :: !env.fails(c)
  }

  // ----- the partition -----

  predicate Qualifies(e: GenreEntry)
  {
    |e.tracks| >= MinTracks
  }

  /** `playlists_to_create`, from entry `i` on. */
  function CreatesFrom(items: seq<GenreEntry>, i: nat, existing: map<string, string>): seq<NewPlaylist>
    decreases |items| - i
  {
    if i >= |items| then []
    else
      var rest := CreatesFrom(items, i + 1, existing);
      var name := Title(items[i].genre);
      if !Qualifies(items[i]) || name in existing then rest
      else [NewPlaylist(name, items[i].tracks)] + rest
  }

  /** `playlists_to_update`, from entry `i` on. */
  function UpdatesFrom(items: seq<GenreEntry>, i: nat, existing: map<string, string>): seq<Update>
    decreases |items| - i
  {
    if i >= |items| then []
    else
      var rest := UpdatesFrom(items, i + 1, existing);
      var name := Title(items[i].genre);
      if !Qualifies(items[i]) || name !in existing then rest
      else [Update(name, existing[name], items[i].tracks)] + rest
  }

  /**
   * Each qualifying genre goes to exactly one list: to the updates, with the
   * playlist id the name has, iff its title-cased name is an existing name;
   * a genre of fewer than 100 tracks goes to neither.
   */
  lemma PartitionMember(items: seq<GenreEntry>, i: nat, existing: map<string, string>, name: string, ids: set<string>)
    ensures NewPlaylist(name, ids) in CreatesFrom(items, i, existing) <==>
      name !in existing && exists k :: i <= k < |items| && Qualifies(items[k]) && Title(items[k].genre) == name && items[k].tracks == ids
    ensures (exists p :: Update(name, p, ids) in UpdatesFrom(items, i, existing)) <==>
      name in existing && exists k :: i <= k < |items| && Qualifies(items[k]) && Title(items[k].genre) == name && items[k].tracks == ids
    ensures forall u :: u in UpdatesFrom(items, i, existing) ==> u.name in existing && u.playlist == existing[u.name]
  {
    CreatesMember(items, i, existing, name, ids);
    UpdatesMember(items, i, existing, name, ids);
    UpdatesExisting(items, i, existing);
  }

  lemma {:induction false} CreatesMember(items: seq<GenreEntry>, i: nat, existing: map<string, string>, name: string, ids: set<string>)
    ensures NewPlaylist(name, ids) in CreatesFrom(items, i, existing) <==>
      name !in existing && exists k :: i <= k < |items| && Qualifies(items[k]) && Title(items[k].genre) == name && items[k].tracks == ids
    decreases |items| - i
  {
    if i < |items| {
      CreatesMember(items, i + 1, existing, name, ids);
    }
  }

  lemma {:induction false} UpdatesMember(items: seq<GenreEntry>, i: nat, existing: map<string, string>, name: string, ids: set<string>)
    ensures (exists p :: Update(name, p, ids) in UpdatesFrom(items, i, existing)) <==>
      name in existing && exists k :: i <= k < |items| && Qualifies(items[k]) && Title(items[k].genre) == name && items[k].tracks == ids
    decreases |items| - i
  {
    if i < |items| {
      UpdatesMember(items, i + 1, existing, name, ids);
      var rest := UpdatesFrom(items, i + 1, existing);
      if Qualifies(items[i]) && Title(items[i].genre) in existing && Title(items[i].genre) == name && items[i].tracks == ids {
        assert Update(name, existing[name], ids) in UpdatesFrom(items, i, existing);
      }
      if p :| Update(name, p, ids) in UpdatesFrom(items, i, existing) {
        if Update(name, p, ids) !in rest {
          assert Qualifies(items[i]) && Title(items[i].genre) == name && items[i].tracks == ids;
        }
      }
    }
  }

  lemma {:induction false} UpdatesExisting(items: seq<GenreEntry>, i: nat, existing: map<string, string>)
    ensures forall u :: u in UpdatesFrom(items, i, existing) ==> u.name in existing && u.playlist == existing[u.name]
    decreases |items| - i
  {
    if i < |items| {
      UpdatesExisting(items, i + 1, existing);
    }
  }

  /** Exactly 100 tracks is enough: such a genre is created or updated. */
  lemma HundredQualifies(items: seq<GenreEntry>, k: nat, existing: map<string, string>)
    requires k < |items| && |items[k].tracks| == 100
    ensures var name := Title(items[k].genre);
      if name in existing then Update(name, existing[name], items[k].tracks) in UpdatesFrom(items, 0, existing)
      else NewPlaylist(name, items[k].tracks) in CreatesFrom(items, 0, existing)
  {
    var name := Title(items[k].genre);
    PartitionMember(items, 0, existing, name, items[k].tracks);
    if name in existing {
      var p :| Update(name, p, items[k].tracks) in UpdatesFrom(items, 0, existing);
    }
  }

  /** The loop that fills `playlists_to_create` and `playlists_to_update`. */
  method Partition(items: seq<GenreEntry>, existing: map<string, string>)
    returns (playlistsToCreate: seq<NewPlaylist>, playlistsToUpdate: seq<Update>)
    ensures playlistsToCreate == CreatesFrom(items, 0, existing)
    ensures playlistsToUpdate == UpdatesFrom(items, 0, existing)
  {
    playlistsToCreate := [];
    playlistsToUpdate := [];
    for i: nat := 0 to |items|
      invariant playlistsToCreate + CreatesFrom(items, i, existing) == CreatesFrom(items, 0, existing)
      invariant playlistsToUpdate + UpdatesFrom(items, i, existing) == UpdatesFrom(items, 0, existing)
    {
      var trackIds := items[i].tracks;
      if |trackIds| < MinTracks {
        continue;
      }
      var playlistName := Title(items[i].genre);
      if playlistName in existing {
        playlistsToUpdate := playlistsToUpdate + [Update(playlistName, existing[playlistName], trackIds)];
      } else {
        playlistsToCreate := playlistsToCreate + [NewPlaylist(playlistName, trackIds)];
      }
    }
  }

  // ----- sending tracks in slices of 50 -----

  function SliceEnd(n: nat, i: nat): nat
  {
    if i + ChunkSize <= n then i + ChunkSize else n
  }

  /**
   * `for i in range(0, len(ids), 50): sp.playlist_add_items(playlist, ids[i:i + 50]); rate_limiter.wait()`
   * from slice `i` on; `ok` is false when an add raised, which ends the loop.
   */
  function AddChunks(playlist: string, ids: seq<string>, i: nat, fails: Call -> bool): Run
    decreases |ids| - i
  {
    if i >= |ids| then Run([], true)
    else
      var c := AddItems(playlist, ids[i..SliceEnd(|ids|, i)]);
      if fails(c) then Run([c], false)
      else
        var rest := AddChunks(playlist, ids, SliceEnd(|ids|, i), fails);
        Run([c, Wait] + rest.calls, rest.ok)
  }

  method SendChunks(playlist: string, ids: seq<string>, fails: Call -> bool) returns (r: Run)
    ensures r == AddChunks(playlist, ids, 0, fails)
  {
    var calls: seq<Call> := [];
    var i := 0;
    while i < |ids|
      invariant i <= |ids|
      invariant calls + AddChunks(playlist, ids, i, fails).calls == AddChunks(playlist, ids, 0, fails).calls
      invariant AddChunks(playlist, ids, i, fails).ok == AddChunks(playlist, ids, 0, fails).ok
      decreases |ids| - i
    {
      var chunk := ids[i..SliceEnd(|ids|, i)];
      var c := AddItems(playlist, chunk);
      if fails(c) {
        return Run(calls + [c], false);
      }
      calls := calls + [c, Wait];
      i := SliceEnd(|ids|, i);
    }
    return Run(calls, true);
  }

  /** The tracks a list of calls adds to `playlist`. */
  function AddedTo(calls: seq<Call>, playlist: string): set<string>
  {
    set k, x | 0 <= k < |calls| && calls[k].AddItems? && calls[k].playlist == playlist && x in calls[k].chunk :: x
  }

  lemma AddedToAppend(a: seq<Call>, b: seq<Call>, playlist: string)
    ensures AddedTo(a + b, playlist) == AddedTo(a, playlist) + AddedTo(b, playlist)
  {
    var ab := a + b;
    forall x | x in AddedTo(ab, playlist) ensures x in AddedTo(a, playlist) + AddedTo(b, playlist) {
      var k :| 0 <= k < |ab| && ab[k].AddItems? && ab[k].playlist == playlist && x in ab[k].chunk;
      if k >= |a| {
        assert b[k - |a|] == ab[k];
      }
    }
    forall x | x in AddedTo(a, playlist) ensures x in AddedTo(ab, playlist) {
      var k :| 0 <= k < |a| && a[k].AddItems? && a[k].playlist == playlist && x in a[k].chunk;
      assert ab[k] == a[k];
    }
    forall x | x in AddedTo(b, playlist) ensures x in AddedTo(ab, playlist) {
      var k :| 0 <= k < |b| && b[k].AddItems? && b[k].playlist == playlist && x in b[k].chunk;
      assert ab[|a| + k] == b[k];
    }
  }

  /** The tracks of one add. */
  lemma AddedToOne(c: Call, other: Call, playlist: string)
    requires c.AddItems? && c.playlist == playlist && !other.AddItems?
    ensures AddedTo([c, other], playlist) == Elems(c.chunk)
    ensures AddedTo([c], playlist) == Elems(c.chunk)
  {
    assert forall x :: x in c.chunk ==> x in [c, other][0].chunk && x in [c][0].chunk;
  }

  /** Calls that add nothing. */
  lemma AddedToNone(calls: seq<Call>, playlist: string)
    requires forall k :: 0 <= k < |calls| ==> !calls[k].AddItems?
    ensures AddedTo(calls, playlist) == {}
  {
  }

  /** Each add goes to `playlist`, is not empty and holds at most 50 tracks, all from `ids[i..]`. */
  lemma {:induction false} AddChunksShape(playlist: string, ids: seq<string>, i: nat, fails: Call -> bool)
    requires i <= |ids|
    ensures forall c :: c in AddChunks(playlist, ids, i, fails).calls ==> c.AddItems? || c == Wait
    ensures forall c :: c in AddChunks(playlist, ids, i, fails).calls && c.AddItems? ==>
      c.playlist == playlist && 0 < |c.chunk| <= ChunkSize && forall x :: x in c.chunk ==> x in ids[i..]
    decreases |ids| - i
  {
    if i < |ids| {
      var end := SliceEnd(|ids|, i);
      var c := AddItems(playlist, ids[i..end]);
      if !fails(c) {
        AddChunksShape(playlist, ids, end, fails);
        assert forall x :: x in ids[end..] ==> x in ids[i..];
      }
    }
  }

  /** When no add raises, the slices together hold every track of `ids[i..]`. */
  lemma {:induction false} AddChunksAdded(playlist: string, ids: seq<string>, i: nat, fails: Call -> bool)
    requires i <= |ids|
    ensures AddChunks(playlist, ids, i, fails).ok ==> AddedTo(AddChunks(playlist, ids, i, fails).calls, playlist) == Elems(ids[i..])
    decreases |ids| - i
  {
    if i < |ids| {
      var end := SliceEnd(|ids|, i);
      var c := AddItems(playlist, ids[i..end]);
      if !fails(c) {
        AddChunksAdded(playlist, ids, end, fails);
        var rest := AddChunks(playlist, ids, end, fails);
        assert ids[i..] == ids[i..end] + ids[end..];
        AddedToAppend([c, Wait], rest.calls, playlist);
        AddedToOne(c, Wait, playlist);
        ElemsAppend(ids[i..end], ids[end..]);
      }
    } else {
      assert ids[i..] == [];
    }
  }

  /** When no call raises, every slice is sent. */
  lemma {:induction false} AddChunksOk(playlist: string, ids: seq<string>, i: nat, fails: Call -> bool)
    requires forall c :: !fails(c)
    ensures AddChunks(playlist, ids, i, fails).ok
    decreases |ids| - i
  {
    if i < |ids| {
      AddChunksOk(playlist, ids, SliceEnd(|ids|, i), fails);
    }
  }

  // ----- one playlist -----

  /**
   * One entry of `playlists_to_create`: create it, send its tracks, wait;
   * if a call raises, the rest of this playlist is skipped after a pause.
   */
  function CreateOne(p: NewPlaylist, env: Env): seq<Call>
  {
    var c := CreatePlaylist(p.name);
    if env.fails(c) then [c, Sleep(ErrorPause)]
    else
      var r := AddChunks(env.newId(p.name), env.listOf(p.tracks), 0, env.fails);
      [c] + r.calls + (if r.ok then [Wait] else [Sleep(ErrorPause)])
  }

  /**
   * One entry of `playlists_to_update`: read its tracks, send those it
   * lacks, if any; if a call raises, the rest of it is skipped after a pause.
   */
  function UpdateOne(u: Update, env: Env): seq<Call>
  {
    var c := ReadTracks(u.playlist);
    if env.fails(c) then [c, Sleep(ErrorPause)]
    else
      var newTrackIds := u.tracks - env.tracksOf(u.playlist);
      if newTrackIds == {} then [c]
      else
        var r := AddChunks(u.playlist, env.listOf(newTrackIds), 0, env.fails);
        [c] + r.calls + (if r.ok then [] else [Sleep(ErrorPause)])
  }

  method CreatePlaylistWithTracks(p: NewPlaylist, env: Env) returns (calls: seq<Call>)
    ensures calls == CreateOne(p, env)
  {
    var c := CreatePlaylist(p.name);
    if env.fails(c) {
      return [c, Sleep(ErrorPause)];
    }
    var playlistId := env.newId(p.name);
    var trackIdsList := env.listOf(p.tracks);
    var r := SendChunks(playlistId, trackIdsList, env.fails);
    calls := [c] + r.calls + (if r.ok then [Wait] else [Sleep(ErrorPause)]);
  }

  method UpdatePlaylist(u: Update, env: Env) returns (calls: seq<Call>)
    ensures calls == UpdateOne(u, env)
  {
    var c := ReadTracks(u.playlist);
    if env.fails(c) {
      return [c, Sleep(ErrorPause)];
    }
    var existingTracks := env.tracksOf(u.playlist);
    var newTrackIds := u.tracks - existingTracks;
    if newTrackIds == {} {
      return [c];
    }
    var r := SendChunks(u.playlist, env.listOf(newTrackIds), env.fails);
    calls := [c] + r.calls + (if r.ok then [] else [Sleep(ErrorPause)]);
  }

  /**
   * An update adds to its own playlist only, and only tracks the genre has
   * and the playlist lacks, in slices of at most 50.
   */
  lemma UpdateOneShape(u: Update, env: Env)
    requires Enumerates(env.listOf)
    ensures forall c :: c in UpdateOne(u, env) ==> !c.CreatePlaylist?
    ensures forall c :: c in UpdateOne(u, env) && c.AddItems? ==>
      c.playlist == u.playlist && 0 < |c.chunk| <= ChunkSize &&
      forall x :: x in c.chunk ==> x in u.tracks && x !in env.tracksOf(u.playlist)
  {
    var c := ReadTracks(u.playlist);
    var newTrackIds := u.tracks - env.tracksOf(u.playlist);
    if !env.fails(c) && newTrackIds != {} {
      var ids := env.listOf(newTrackIds);
      AddChunksShape(u.playlist, ids, 0, env.fails);
      assert ids[0..] == ids;
      assert Elems(ids) == newTrackIds;
    }
  }

  /** When nothing raises, an update adds every track the genre has and the playlist lacks. */
  lemma UpdateOneAdds(u: Update, env: Env)
    requires Enumerates(env.listOf) && NeverFails(env)
    ensures AddedTo(UpdateOne(u, env), u.playlist) == u.tracks - env.tracksOf(u.playlist)
  {
    var c := ReadTracks(u.playlist);
    assert !env.fails(c);
    var newTrackIds := u.tracks - env.tracksOf(u.playlist);
    if newTrackIds != {} {
      var ids := env.listOf(newTrackIds);
      var r := AddChunks(u.playlist, ids, 0, env.fails);
      AddChunksOk(u.playlist, ids, 0, env.fails);
      AddChunksAdded(u.playlist, ids, 0, env.fails);
      assert ids[0..] == ids;
      assert Elems(ids) == newTrackIds;
      assert UpdateOne(u, env) == [c] + r.calls + [];
      AddedToAppend([c], r.calls, u.playlist);
      AddedToNone([c], u.playlist);
      assert [c] + r.calls + [] == [c] + r.calls;
    } else {
      AddedToNone([c], u.playlist);
    }
  }

  /** An update of a playlist that already has every track writes nothing. */
  lemma UpdateOneNothingNew(u: Update, env: Env)
    requires u.tracks <= env.tracksOf(u.playlist)
    ensures forall c :: c in UpdateOne(u, env) ==> !c.AddItems? && !c.CreatePlaylist?
  {
    assert u.tracks - env.tracksOf(u.playlist) == {};
  }

  /**
   * A new playlist receives only its genre's tracks, under the id Spotify
   * gave it, and when nothing raises it receives all of them.
   */
  lemma CreateOneAdds(p: NewPlaylist, env: Env)
    requires Enumerates(env.listOf)
    ensures forall c :: c in CreateOne(p, env) && c.AddItems? ==>
      c.playlist == env.newId(p.name) && 0 < |c.chunk| <= ChunkSize && forall x :: x in c.chunk ==> x in p.tracks
    ensures forall c :: c in CreateOne(p, env) && c.CreatePlaylist? ==> c.name == p.name
    ensures NeverFails(env) ==> AddedTo(CreateOne(p, env), env.newId(p.name)) == p.tracks
  {
    var c := CreatePlaylist(p.name);
    var id := env.newId(p.name);
    if !env.fails(c) {
      var ids := env.listOf(p.tracks);
      var r := AddChunks(id, ids, 0, env.fails);
      AddChunksShape(id, ids, 0, env.fails);
      assert ids[0..] == ids;
      assert Elems(ids) == p.tracks;
      var tail := if r.ok then [Wait] else [Sleep(ErrorPause)];
      assert CreateOne(p, env) == [c] + r.calls + tail;
      if NeverFails(env) {
        AddChunksOk(id, ids, 0, env.fails);
        AddChunksAdded(id, ids, 0, env.fails);
        assert r.ok && AddedTo(r.calls, id) == p.tracks;
        AddedToAppend([c], r.calls, id);
        AddedToAppend([c] + r.calls, tail, id);
        AddedToNone([c], id);
        AddedToNone(tail, id);
        assert AddedTo([c] + r.calls, id) == p.tracks;
        assert AddedTo([c] + r.calls + tail, id) == p.tracks;
        assert AddedTo(CreateOne(p, env), id) == p.tracks;
      }

    } else {
      AddedToNone([c, Sleep(ErrorPause)], id);
    }
  }

  // ----- the whole pass -----

  function CreateAll(ps: seq<NewPlaylist>, i: nat, env: Env): seq<Call>
    decreases |ps| - i
  {
    if i >= |ps| then [] else CreateOne(ps[i], env) + CreateAll(ps, i + 1, env)
  }

  function UpdateAll(us: seq<Update>, i: nat, env: Env): seq<Call>
    decreases |us| - i
  {
    if i >= |us| then [] else UpdateOne(us[i], env) + UpdateAll(us, i + 1, env)
  }

  /**
   * `create_genre_playlists_optimized` after the buckets are built: the
   * creations, then the updates. `sp.current_user()` is called, outside any
   * `try`, only when there is something to create; if it raises, nothing is
   * created or updated.
   */
  function Pass(items: seq<GenreEntry>, existing: map<string, string>, env: Env): Run
  {
    var ps := CreatesFrom(items, 0, existing);
    var us := UpdatesFrom(items, 0, existing);
    if ps != [] && env.fails(CurrentUser) then Run([CurrentUser], false)
    else Run((if ps != [] then [CurrentUser] else []) + CreateAll(ps, 0, env) + UpdateAll(us, 0, env), true)
  }

  /** `for playlist_name, track_ids in playlists_to_create`. */
  method CreateEach(ps: seq<NewPlaylist>, env: Env) returns (calls: seq<Call>)
    ensures calls == CreateAll(ps, 0, env)
  {
    calls := [];
    for i: nat := 0 to |ps|
      invariant calls + CreateAll(ps, i, env) == CreateAll(ps, 0, env)
    {
      calls := CreateNext(ps, i, env, calls);
    }
  }

  /** One pass of the creation loop: the next playlist's calls are appended. */
  method CreateNext(ps: seq<NewPlaylist>, i: nat, env: Env, calls: seq<Call>) returns (next: seq<Call>)
    requires i < |ps| && calls + CreateAll(ps, i, env) == CreateAll(ps, 0, env)
    ensures next + CreateAll(ps, i + 1, env) == CreateAll(ps, 0, env)
  {
    var made := CreatePlaylistWithTracks(ps[i], env);
    CreateAllNext(ps, i, env, calls, made);
    next := calls + made;
  }

  /** One pass of the update loop: the next playlist's calls are appended. */
  method UpdateNext(us: seq<Update>, i: nat, env: Env, calls: seq<Call>) returns (next: seq<Call>)
    requires i < |us| && calls + UpdateAll(us, i, env) == UpdateAll(us, 0, env)
    ensures next + UpdateAll(us, i + 1, env) == UpdateAll(us, 0, env)
  {
    var made := UpdatePlaylist(us[i], env);
    UpdateAllNext(us, i, env, calls, made);
    next := calls + made;
  }

  lemma CreateAllStep(ps: seq<NewPlaylist>, i: nat, env: Env)
    requires i < |ps|
    ensures CreateAll(ps, i, env) == CreateOne(ps[i], env) + CreateAll(ps, i + 1, env)
  {
  }

  lemma UpdateAllStep(us: seq<Update>, i: nat, env: Env)
    requires i < |us|
    ensures UpdateAll(us, i, env) == UpdateOne(us[i], env) + UpdateAll(us, i + 1, env)
  {
  }

  /** The calls made so far and those still to come add up to the whole pass. */
  lemma CreateAllNext(ps: seq<NewPlaylist>, i: nat, env: Env, calls: seq<Call>, made: seq<Call>)
    requires i < |ps| && made == CreateOne(ps[i], env)
    requires calls + CreateAll(ps, i, env) == CreateAll(ps, 0, env)
    ensures (calls + made) + CreateAll(ps, i + 1, env) == CreateAll(ps, 0, env)
  {
    assert (calls + made) + CreateAll(ps, i + 1, env) == calls + (made + CreateAll(ps, i + 1, env));
  }

  lemma UpdateAllNext(us: seq<Update>, i: nat, env: Env, calls: seq<Call>, made: seq<Call>)
    requires i < |us| && made == UpdateOne(us[i], env)
    requires calls + UpdateAll(us, i, env) == UpdateAll(us, 0, env)
    ensures (calls + made) + UpdateAll(us, i + 1, env) == UpdateAll(us, 0, env)
  {
    assert (calls + made) + UpdateAll(us, i + 1, env) == calls + (made + UpdateAll(us, i + 1, env));
  }

  /** `for playlist_name, playlist_id, track_ids in playlists_to_update`. */
  method UpdateEach(us: seq<Update>, env: Env) returns (calls: seq<Call>)
    ensures calls == UpdateAll(us, 0, env)
  {
    calls := [];
    for i: nat := 0 to |us|
      invariant calls + UpdateAll(us, i, env) == UpdateAll(us, 0, env)
    {
      calls := UpdateNext(us, i, env, calls);
    }
  }

  method CreateGenrePlaylistsOptimized(items: seq<GenreEntry>, existing: map<string, string>,
                                       env: Env) returns (r: Run)
    ensures r == Pass(items, existing, env)
  {
    var playlistsToCreate, playlistsToUpdate := Partition(items, existing);
    var userCall: seq<Call> := [];
    if playlistsToCreate != [] {
      if env.fails(CurrentUser) {
        return Run([CurrentUser], false);
      }
      userCall := [CurrentUser];
    }
    var created := CreateEach(playlistsToCreate, env);
    var updated := UpdateEach(playlistsToUpdate, env);
    r := Run(userCall + created + updated, true);
  }

  /** The creations write only the listed playlists, each with its own tracks. */
  lemma {:induction false} CreateAllWrites(ps: seq<NewPlaylist>, i: nat, env: Env)
    requires Enumerates(env.listOf)
    ensures forall c :: c in CreateAll(ps, i, env) && c.CreatePlaylist? ==>
      exists j :: i <= j < |ps| && c.name == ps[j].name
    ensures forall c :: c in CreateAll(ps, i, env) && c.AddItems? ==>
      0 < |c.chunk| <= ChunkSize &&
      exists j :: i <= j < |ps| && c.playlist == env.newId(ps[j].name) &&
        forall x :: x in c.chunk ==> x in ps[j].tracks
    decreases |ps| - i
  {
    if i < |ps| {
      CreateOneAdds(ps[i], env);
      CreateAllWrites(ps, i + 1, env);
    }
  }

  /** The updates write only the listed playlists, each with tracks it lacks. */
  lemma {:induction false} UpdateAllWrites(us: seq<Update>, i: nat, env: Env)
    requires Enumerates(env.listOf)
    ensures forall c :: c in UpdateAll(us, i, env) ==> !c.CreatePlaylist?
    ensures forall c :: c in UpdateAll(us, i, env) && c.AddItems? ==>
      0 < |c.chunk| <= ChunkSize &&
      exists j :: i <= j < |us| && c.playlist == us[j].playlist &&
        forall x :: x in c.chunk ==> x in us[j].tracks && x !in env.tracksOf(c.playlist)
    decreases |us| - i
  {
    if i < |us| {
      UpdateOneShape(us[i], env);
      UpdateAllWrites(us, i + 1, env);
    }
  }

  /**
   * The pass only creates playlists and adds tracks, and each write has a
   * reason: a playlist is created only under a qualifying genre's title that
   * is not an existing name; tracks go, in slices of at most 50, only to a
   * qualifying genre's existing playlist, and then only tracks the genre has
   * and the playlist lacks, or to the genre's new playlist, and then only
   * the genre's tracks.
   */
  lemma PassWrites(items: seq<GenreEntry>, existing: map<string, string>, env: Env)
    requires Enumerates(env.listOf)
    ensures forall c :: c in Pass(items, existing, env).calls && c.CreatePlaylist? ==>
      c.name !in existing && exists k :: 0 <= k < |items| && Qualifies(items[k]) && Title(items[k].genre) == c.name
    ensures forall c :: c in Pass(items, existing, env).calls && c.AddItems? ==>
      AllowedAdd(items, existing, env, c)
  {
    var ps := CreatesFrom(items, 0, existing);
    var us := UpdatesFrom(items, 0, existing);
    PassCallsFrom(items, existing, env);
    CreatesQualify(items, existing);
    UpdatesQualify(items, existing);
    PassCreates(items, existing, env, ps);
    PassAdds(items, existing, env, ps, us);
  }

  /** A pass makes its user lookup, then the creations, then the updates. */
  lemma PassCallsFrom(items: seq<GenreEntry>, existing: map<string, string>, env: Env)
    ensures forall c :: c in Pass(items, existing, env).calls ==>
      c == CurrentUser || c in CreateAll(CreatesFrom(items, 0, existing), 0, env) ||
      c in UpdateAll(UpdatesFrom(items, 0, existing), 0, env)
  {
  }

  lemma CreatesQualify(items: seq<GenreEntry>, existing: map<string, string>)
    ensures var ps := CreatesFrom(items, 0, existing);
      forall j | 0 <= j < |ps| :: (ps[j].name !in existing &&
        exists k :: 0 <= k < |items| && Qualifies(items[k]) && Title(items[k].genre) == ps[j].name && items[k].tracks == ps[j].tracks)
  {
    var ps := CreatesFrom(items, 0, existing);
    forall j | 0 <= j < |ps|
      ensures ps[j].name !in existing &&
        exists k :: 0 <= k < |items| && Qualifies(items[k]) && Title(items[k].genre) == ps[j].name && items[k].tracks == ps[j].tracks
    {
      PartitionMember(items, 0, existing, ps[j].name, ps[j].tracks);
      assert NewPlaylist(ps[j].name, ps[j].tracks) in ps;
    }
  }

  lemma UpdatesQualify(items: seq<GenreEntry>, existing: map<string, string>)
    ensures var us := UpdatesFrom(items, 0, existing);
      forall j | 0 <= j < |us| :: (us[j].name in existing && us[j].playlist == existing[us[j].name] &&
        exists k :: 0 <= k < |items| && Qualifies(items[k]) && Title(items[k].genre) == us[j].name && items[k].tracks == us[j].tracks)
  {
    var us := UpdatesFrom(items, 0, existing);
    forall j | 0 <= j < |us|
      ensures us[j].name in existing && us[j].playlist == existing[us[j].name] &&
        exists k :: 0 <= k < |items| && Qualifies(items[k]) && Title(items[k].genre) == us[j].name && items[k].tracks == us[j].tracks
    {
      PartitionMember(items, 0, existing, us[j].name, us[j].tracks);
      assert us[j] in us;
    }
  }

  lemma PassCreates(items: seq<GenreEntry>, existing: map<string, string>, env: Env, ps: seq<NewPlaylist>)
    requires Enumerates(env.listOf)
    requires ps == CreatesFrom(items, 0, existing)
    requires forall j | 0 <= j < |ps| :: (ps[j].name !in existing &&
      exists k :: 0 <= k < |items| && Qualifies(items[k]) && Title(items[k].genre) == ps[j].name && items[k].tracks == ps[j].tracks)
    requires forall c :: c in Pass(items, existing, env).calls ==>
      c == CurrentUser || c in CreateAll(ps, 0, env) || c in UpdateAll(UpdatesFrom(items, 0, existing), 0, env)
    ensures forall c :: c in Pass(items, existing, env).calls && c.CreatePlaylist? ==>
      c.name !in existing && exists k :: 0 <= k < |items| && Qualifies(items[k]) && Title(items[k].genre) == c.name
  {
    CreateAllWrites(ps, 0, env);
    UpdateAllWrites(UpdatesFrom(items, 0, existing), 0, env);
  }

  /** What a pass may add to a playlist, as the postcondition on AddItems calls states it. */
  ghost predicate AllowedAdd(items: seq<GenreEntry>, existing: map<string, string>, env: Env, c: Call)
    requires c.AddItems?
  {
    0 < |c.chunk| <= ChunkSize &&
    exists k :: 0 <= k < |items| && Qualifies(items[k]) &&
      ((Title(items[k].genre) in existing && c.playlist == existing[Title(items[k].genre)] &&
        forall x :: x in c.chunk ==> x in items[k].tracks && x !in env.tracksOf(c.playlist)) ||
       (Title(items[k].genre) !in existing && c.playlist == env.newId(Title(items[k].genre)) &&
        forall x :: x in c.chunk ==> x in items[k].tracks))
  }

  lemma PassAdds(items: seq<GenreEntry>, existing: map<string, string>, env: Env, ps: seq<NewPlaylist>, us: seq<Update>)
    requires Enumerates(env.listOf)
    requires ps == CreatesFrom(items, 0, existing) && us == UpdatesFrom(items, 0, existing)
    requires forall j | 0 <= j < |ps| :: (ps[j].name !in existing &&
      exists k :: 0 <= k < |items| && Qualifies(items[k]) && Title(items[k].genre) == ps[j].name && items[k].tracks == ps[j].tracks)
    requires forall j | 0 <= j < |us| :: (us[j].name in existing && us[j].playlist == existing[us[j].name] &&
      exists k :: 0 <= k < |items| && Qualifies(items[k]) && Title(items[k].genre) == us[j].name && items[k].tracks == us[j].tracks)
    requires forall c :: c in Pass(items, existing, env).calls ==>
      c == CurrentUser || c in CreateAll(ps, 0, env) || c in UpdateAll(us, 0, env)
    ensures forall c :: c in Pass(items, existing, env).calls && c.AddItems? ==>
      AllowedAdd(items, existing, env, c)
  {
    CreateAllWrites(ps, 0, env);
    UpdateAllWrites(us, 0, env);
    forall c | c in Pass(items, existing, env).calls && c.AddItems?
      ensures AllowedAdd(items, existing, env, c)
    {
      if c in CreateAll(ps, 0, env) {
        var j :| 0 <= j < |ps| && c.playlist == env.newId(ps[j].name) &&
          forall x :: x in c.chunk ==> x in ps[j].tracks;
        CreatedAddAllowed(items, existing, env, c, ps[j]);
      } else {
        assert c in UpdateAll(us, 0, env);
        var j :| 0 <= j < |us| && c.playlist == us[j].playlist &&
          forall x :: x in c.chunk ==> x in us[j].tracks && x !in env.tracksOf(c.playlist);
        UpdatedAddAllowed(items, existing, env, c, us[j]);
      }
    }
  }

  lemma CreatedAddAllowed(items: seq<GenreEntry>, existing: map<string, string>, env: Env, c: Call, p: NewPlaylist)
    requires c.AddItems? && 0 < |c.chunk| <= ChunkSize
    requires c.playlist == env.newId(p.name) && forall x :: x in c.chunk ==> x in p.tracks
    requires p.name !in existing &&
      exists k :: 0 <= k < |items| && Qualifies(items[k]) && Title(items[k].genre) == p.name && items[k].tracks == p.tracks
    ensures AllowedAdd(items, existing, env, c)
  {
    var k :| 0 <= k < |items| && Qualifies(items[k]) && Title(items[k].genre) == p.name && items[k].tracks == p.tracks;
    assert Title(items[k].genre) !in existing && c.playlist == env.newId(Title(items[k].genre)) &&
      forall x :: x in c.chunk ==> x in items[k].tracks;
  }

  lemma UpdatedAddAllowed(items: seq<GenreEntry>, existing: map<string, string>, env: Env, c: Call, u: Update)
    requires c.AddItems? && 0 < |c.chunk| <= ChunkSize
    requires c.playlist == u.playlist && forall x :: x in c.chunk ==> x in u.tracks && x !in env.tracksOf(c.playlist)
    requires u.name in existing && u.playlist == existing[u.name] &&
      exists k :: 0 <= k < |items| && Qualifies(items[k]) && Title(items[k].genre) == u.name && items[k].tracks == u.tracks
    ensures AllowedAdd(items, existing, env, c)
  {
    var k :| 0 <= k < |items| && Qualifies(items[k]) && Title(items[k].genre) == u.name && items[k].tracks == u.tracks;
    assert Title(items[k].genre) in existing && c.playlist == existing[Title(items[k].genre)] &&
      forall x :: x in c.chunk ==> x in items[k].tracks && x !in env.tracksOf(c.playlist);
  }

  lemma {:induction false} UpdateAllReads(us: seq<Update>, i: nat, env: Env, k: nat)
    requires i <= k < |us|
    ensures ReadTracks(us[k].playlist) in UpdateAll(us, i, env)
    decreases |us| - i
  {
    if k > i {
      UpdateAllReads(us, i + 1, env, k);
    } else {
      assert UpdateOne(us[i], env)[0] == ReadTracks(us[i].playlist);
    }
  }

  /**
   * An error on one playlist does not stop the pass: unless
   * `sp.current_user()` raised, every qualifying genre's playlist is
   * attempted, its creation or its tracks read, whatever the other calls do.
   */
  lemma GenreAttempted(items: seq<GenreEntry>, existing: map<string, string>, env: Env, k: nat)
    requires k < |items| && Qualifies(items[k])
    requires !env.fails(CurrentUser)
    ensures var name := Title(items[k].genre);
      if name in existing then ReadTracks(existing[name]) in Pass(items, existing, env).calls
      else CreatePlaylist(name) in Pass(items, existing, env).calls
  {
    var ps := CreatesFrom(items, 0, existing);
    var us := UpdatesFrom(items, 0, existing);
    var name := Title(items[k].genre);
    var ids := items[k].tracks;
    PartitionMember(items, 0, existing, name, ids);
    if name in existing {
      var p :| Update(name, p, ids) in us;
      var j :| 0 <= j < |us| && us[j] == Update(name, p, ids);
      UpdateAllReads(us, 0, env, j);
    } else {
      var j :| 0 <= j < |ps| && ps[j] == NewPlaylist(name, ids);
      CreateAllHas(ps, 0, env, j, name);
    }
  }

  /**
   * `sp.current_user()` is outside the `try`: when it raises, no playlist is
   * touched, not even the ones that only needed an update.
   */
  lemma UserFailureStopsAll(items: seq<GenreEntry>, existing: map<string, string>, env: Env)
    requires env.fails(CurrentUser)
    ensures var r := Pass(items, existing, env);
      (CreatesFrom(items, 0, existing) != [] ==> !r.ok && forall c :: c in r.calls ==> c == CurrentUser) &&
      (CreatesFrom(items, 0, existing) == [] ==> r.ok)
  {
  }

  // ----- running the pass again -----

  /** The names of the playlists the calls create. */
  function CreatedNames(calls: seq<Call>): set<string>
  {
    set k | 0 <= k < |calls| && calls[k].CreatePlaylist? :: calls[k].name
  }

  lemma CreatedNamesHas(calls: seq<Call>, name: string)
    requires CreatePlaylist(name) in calls
    ensures name in CreatedNames(calls)
  {
    var k :| 0 <= k < |calls| && calls[k] == CreatePlaylist(name);
  }

  /** What `get_existing_playlists` returns after a run: the old names, and each new one under its new id. */
  function NamesAfter(existing: map<string, string>, env: Env, calls: seq<Call>): (r: map<string, string>)
    ensures r.Keys == existing.Keys + CreatedNames(calls)
  {
    (map n | n in CreatedNames(calls) :: env.newId(n)) + existing
  }

  /** What `get_playlist_track_ids` reads after a run: the old tracks and the ones added. */
  function TracksAfter(env: Env, calls: seq<Call>): string -> set<string>
  {
    p => env.tracksOf(p) + AddedTo(calls, p)
  }

  lemma {:induction false} CreateAllHas(ps: seq<NewPlaylist>, i: nat, env: Env, k: nat, playlist: string)
    requires i <= k < |ps|
    ensures CreatePlaylist(ps[k].name) in CreateAll(ps, i, env)
    ensures AddedTo(CreateOne(ps[k], env), playlist) <= AddedTo(CreateAll(ps, i, env), playlist)
    decreases |ps| - i
  {
    AddedToAppend(CreateOne(ps[i], env), CreateAll(ps, i + 1, env), playlist);
    if k > i {
      CreateAllHas(ps, i + 1, env, k, playlist);
    }
  }

  lemma {:induction false} UpdateAllHas(us: seq<Update>, i: nat, env: Env, k: nat, playlist: string)
    requires i <= k < |us|
    ensures AddedTo(UpdateOne(us[k], env), playlist) <= AddedTo(UpdateAll(us, i, env), playlist)
    decreases |us| - i
  {
    AddedToAppend(UpdateOne(us[i], env), UpdateAll(us, i + 1, env), playlist);
    if k > i {
      UpdateAllHas(us, i + 1, env, k, playlist);
    }
  }

  lemma {:induction false} UpdateAllNoWrites(us: seq<Update>, i: nat, env: Env)
    requires forall k :: i <= k < |us| ==> us[k].tracks <= env.tracksOf(us[k].playlist)
    ensures forall c :: c in UpdateAll(us, i, env) ==> !c.AddItems? && !c.CreatePlaylist?
    decreases |us| - i
  {
    if i < |us| {
      UpdateOneNothingNew(us[i], env);
      UpdateAllNoWrites(us, i + 1, env);
    }
  }

  /** When every qualifying genre's name exists, nothing is created. */
  lemma {:induction false} NothingToCreate(items: seq<GenreEntry>, i: nat, existing: map<string, string>)
    requires forall k :: i <= k < |items| && Qualifies(items[k]) ==> Title(items[k].genre) in existing
    ensures CreatesFrom(items, i, existing) == []
    decreases |items| - i
  {
    if i < |items| {
      NothingToCreate(items, i + 1, existing);
    }
  }

  /** After a run where nothing raised, each qualifying genre has a playlist holding all its tracks. */
  lemma GenreServed(items: seq<GenreEntry>, existing: map<string, string>, env: Env, k: nat)
    requires NeverFails(env) && Enumerates(env.listOf)
    requires k < |items| && Qualifies(items[k])
    ensures var calls := Pass(items, existing, env).calls;
      var after := NamesAfter(existing, env, calls);
      var name := Title(items[k].genre);
      name in after && items[k].tracks <= TracksAfter(env, calls)(after[name])
  {
    var ps := CreatesFrom(items, 0, existing);
    var us := UpdatesFrom(items, 0, existing);
    var user: seq<Call> := if ps != [] then [CurrentUser] else [];
    var calls := Pass(items, existing, env).calls;
    assert calls == user + CreateAll(ps, 0, env) + UpdateAll(us, 0, env);
    var name := Title(items[k].genre);
    var ids := items[k].tracks;
    PartitionMember(items, 0, existing, name, ids);
    if name in existing {
      var p :| Update(name, p, ids) in us;
      var j :| 0 <= j < |us| && us[j] == Update(name, p, ids);
      assert p == existing[name];
      UpdateOneAdds(us[j], env);
      UpdateAllHas(us, 0, env, j, p);
      AddedToAppend(user + CreateAll(ps, 0, env), UpdateAll(us, 0, env), p);
    } else {
      var j :| 0 <= j < |ps| && ps[j] == NewPlaylist(name, ids);
      var id := env.newId(name);
      CreateOneAdds(ps[j], env);
      CreateAllHas(ps, 0, env, j, id);
      AddedToAppend(user + CreateAll(ps, 0, env), UpdateAll(us, 0, env), id);
      AddedToAppend(user, CreateAll(ps, 0, env), id);
      assert CreatePlaylist(name) in calls;
      CreatedNamesHas(calls, name);
    }
  }

  /**
   * Running the pass again, after a run where nothing raised, against the
   * account that run left behind, creates nothing and adds nothing, whatever
   * the second run's calls do.
   */
  lemma RerunWritesNothing(items: seq<GenreEntry>, existing: map<string, string>, env: Env, env2: Env)
    requires NeverFails(env) && Enumerates(env.listOf)
    requires env2.tracksOf == TracksAfter(env, Pass(items, existing, env).calls)
    ensures forall c :: c in Pass(items, NamesAfter(existing, env, Pass(items, existing, env).calls), env2).calls ==>
      !c.CreatePlaylist? && !c.AddItems?
  {
    var calls := Pass(items, existing, env).calls;
    var after := NamesAfter(existing, env, calls);
    forall k | 0 <= k < |items| && Qualifies(items[k])
      ensures Title(items[k].genre) in after && items[k].tracks <= env2.tracksOf(after[Title(items[k].genre)])
    {
      GenreServed(items, existing, env, k);
    }
    NothingToCreate(items, 0, after);
    var us := UpdatesFrom(items, 0, after);
    forall j | 0 <= j < |us| ensures us[j].tracks <= env2.tracksOf(us[j].playlist) {
      PartitionMember(items, 0, after, us[j].name, us[j].tracks);
      assert us[j] in us;
    }
    UpdateAllNoWrites(us, 0, env2);
  }
}
