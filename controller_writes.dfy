/**
 * The build pass of controller/Playlist_Creator.py: the pass of
 * Playlist_Creator.py, with a cancel flag the user can set at any time. The
 * flag is read before each playlist and before each slice of 50; once it is
 * seen set, the function returns and nothing later is written.
 *
 * A flag read happens right before each `CreatePlaylist`, `ReadTracks` and
 * `AddItems` call of the pass, so a cancelled pass makes exactly the calls
 * of the uncancelled pass that come before its j-th such call, where j is
 * the number of reads that saw the flag clear. `cancelFrom` is `Some(j)`
 * when read j is the first to see it set, `None` when no read does.
 */
module ControllerPlaylists {
  import opened Wrappers
  import opened PlaylistWrites

  /** The calls the cancel flag is read before. */
  predicate Polled(c: Call)
  {
    c.CreatePlaylist? || c.ReadTracks? || c.AddItems?
  }

  function CountPolled(s: seq<Call>): nat
  {
    if s == [] then 0 else (if Polled(s[0]) then 1 else 0) + CountPolled(s[1..])
  }

  /** The position of the j-th polled call of `s`, or `|s|` when it has fewer. */
  function PollPos(s: seq<Call>, j: nat): (p: nat)
    ensures p <= |s|
  {
    if s == [] then 0
    else if Polled(s[0]) then (if j == 0 then 0 else 1 + PollPos(s[1..], j - 1))
    else 1 + PollPos(s[1..], j)
  }

  /** The calls made before the flag is seen set. */
  function Cut(s: seq<Call>, cancelFrom: Option<nat>): seq<Call>
  {
    match cancelFrom
      case None => s
      case Some(j) => s[..PollPos(s, j)]
  }

  /** The flag is seen set somewhere within `s`. */
  predicate Stopped(s: seq<Call>, cancelFrom: Option<nat>)
  {
    cancelFrom.Some? && cancelFrom.value < CountPolled(s)
  }

  /** The cancelling read counted after `n` reads. */
  function Later(cancelFrom: Option<nat>, n: nat): Option<nat>
  {
    match cancelFrom
      case None => None
      case Some(j) => Some(if j >= n then j - n else 0)
  }

  lemma {:induction false} CountPolledAppend(a: seq<Call>, b: seq<Call>)
    ensures CountPolled(a + b) == CountPolled(a) + CountPolled(b)
  {
    if a == [] {
      assert a + b == b;
    } else {
      assert (a + b)[0] == a[0];
      assert (a + b)[1..] == a[1..] + b;
      CountPolledAppend(a[1..], b);
    }
  }

  /**
   * What a cancelled pass does: a prefix of the uncancelled pass holding
   * exactly `j` of its polled calls (all of them when it has fewer), the
   * call after it, if any, being the polled call the flag stopped.
   */
  lemma {:induction false} CutMeaning(s: seq<Call>, j: nat)
    ensures Cut(s, Some(j)) == s[..PollPos(s, j)]
    ensures CountPolled(Cut(s, Some(j))) == if j <= CountPolled(s) then j else CountPolled(s)
    ensures PollPos(s, j) < |s| ==> Polled(s[PollPos(s, j)]) && j < CountPolled(s)
    ensures PollPos(s, j) == |s| <==> j >= CountPolled(s)
  {
    if s != [] {
      var p := PollPos(s, j);
      assert s == [s[0]] + s[1..];
      if Polled(s[0]) && j == 0 {
        assert s[..p] == [];
      } else {
        var j' := if Polled(s[0]) then j - 1 else j;
        CutMeaning(s[1..], j');
        var q := PollPos(s[1..], j');
        assert s[..p] == [s[0]] + s[1..][..q];
        CountPolledAppend([s[0]], s[1..][..q]);
        if q < |s[1..]| {
          assert s[p] == s[1..][q];
        }
      }
    }
  }

  /** A read that sees the flag set right before the next polled call. */
  lemma CutAtPoll(a: seq<Call>, b: seq<Call>, cancelFrom: Option<nat>)
    requires cancelFrom.Some? && CountPolled(a) == cancelFrom.value
    requires b != [] && Polled(b[0])
    ensures Cut(a + b, cancelFrom) == a && Stopped(a + b, cancelFrom)
  {
    CutLater(a, b, cancelFrom);
    assert Cut(b, Some(0)) == [];
    CountPolledAppend(a, b);
  }

  /** No read within `s` sees the flag set. */
  lemma CutAll(s: seq<Call>, cancelFrom: Option<nat>)
    requires !Stopped(s, cancelFrom)
    ensures Cut(s, cancelFrom) == s
  {
    if cancelFrom.Some? {
      CutMeaning(s, cancelFrom.value);
    }
  }

  lemma {:induction false} PollPosLater(a: seq<Call>, b: seq<Call>, j: nat)
    requires CountPolled(a) <= j
    ensures PollPos(a + b, j) == |a| + PollPos(b, j - CountPolled(a))
  {
    if a == [] {
      assert a + b == b;
    } else {
      assert (a + b)[0] == a[0];
      assert (a + b)[1..] == a[1..] + b;
      PollPosLater(a[1..], b, if Polled(a[0]) then j - 1 else j);
    }
  }

  lemma {:induction false} PollPosEarly(a: seq<Call>, b: seq<Call>, j: nat)
    requires j < CountPolled(a)
    ensures PollPos(a + b, j) == PollPos(a, j)
  {
    assert a != [];
    assert (a + b)[0] == a[0];
    assert (a + b)[1..] == a[1..] + b;
    if !(Polled(a[0]) && j == 0) {
      PollPosEarly(a[1..], b, if Polled(a[0]) then j - 1 else j);
    }
  }

  /** When the flag is not seen within `a`, the count of reads goes on into `b`. */
  lemma CutLater(a: seq<Call>, b: seq<Call>, cancelFrom: Option<nat>)
    requires !Stopped(a, cancelFrom)
    ensures Cut(a + b, cancelFrom) == a + Cut(b, Later(cancelFrom, CountPolled(a)))
    ensures Stopped(a + b, cancelFrom) == Stopped(b, Later(cancelFrom, CountPolled(a)))
  {
    CountPolledAppend(a, b);
    if cancelFrom.Some? {
      var j := cancelFrom.value;
      PollPosLater(a, b, j);
      assert (a + b)[..|a| + PollPos(b, j - CountPolled(a))] == a + b[..PollPos(b, j - CountPolled(a))];
    }
  }

  /** When the flag is seen within `a`, nothing of `b` is done. */
  lemma CutEarly(a: seq<Call>, b: seq<Call>, cancelFrom: Option<nat>)
    requires Stopped(a, cancelFrom)
    ensures Cut(a + b, cancelFrom) == Cut(a, cancelFrom)
    ensures Stopped(a + b, cancelFrom)
  {
    CountPolledAppend(a, b);
    var j := cancelFrom.value;
    PollPosEarly(a, b, j);
    assert (a + b)[..PollPos(a, j)] == a[..PollPos(a, j)];
  }

  // ----- the pass -----

  /**
   * The controller's pass once the buckets are built: the calls of
   * Playlist_Creator.py's pass up to the read that sees the flag set. A
   * cancellation returns normally.
   */
  function ControllerPass(items: seq<GenreEntry>, existing: map<string, string>, env: Env, cancelFrom: Option<nat>): Run
  {
    var r := Pass(items, existing, env);
    Run(Cut(r.calls, cancelFrom), r.ok)
  }

  /** The cancel flag at the given read: seen set from read `j` on. */
  predicate FlagSet(cancelFrom: Option<nat>, polls: nat)
  {
    cancelFrom.Some? && polls >= cancelFrom.value
  }

  /** One more polled call, the flag having been seen clear before it. */
  lemma PolledStep(calls: seq<Call>, c: Call, tail: seq<Call>, cancelFrom: Option<nat>)
    requires Polled(c) && CountPolled(tail) == 0
    requires !FlagSet(cancelFrom, CountPolled(calls))
    ensures CountPolled(calls + [c] + tail) == CountPolled(calls) + 1
    ensures cancelFrom.None? || CountPolled(calls + [c] + tail) <= cancelFrom.value
  {
    CountPolledAppend(calls, [c]);
    CountPolledAppend(calls + [c], tail);
    assert [c][1..] == [];
  }

  /** The flag is seen set before slice `i`: the calls so far are all that is done. */
  lemma SliceFlagSet(playlist: string, ids: seq<string>, i: nat, fails: Call -> bool, cancelFrom: Option<nat>,
                     calls: seq<Call>, full: seq<Call>)
    requires i < |ids| && calls + AddChunks(playlist, ids, i, fails).calls == full
    requires cancelFrom.Some? && CountPolled(calls) == cancelFrom.value
    ensures Cut(full, cancelFrom) == calls && Stopped(full, cancelFrom)
  {
    CutAtPoll(calls, AddChunks(playlist, ids, i, fails).calls, cancelFrom);
  }

  /** Slice `i` raises: its add is the last call, and the flag is not seen. */
  lemma SliceFails(playlist: string, ids: seq<string>, i: nat, fails: Call -> bool, cancelFrom: Option<nat>,
                   calls: seq<Call>, full: seq<Call>)
    requires i < |ids| && calls + AddChunks(playlist, ids, i, fails).calls == full
    requires fails(AddItems(playlist, ids[i..SliceEnd(|ids|, i)]))
    requires !FlagSet(cancelFrom, CountPolled(calls))
    ensures full == calls + [AddItems(playlist, ids[i..SliceEnd(|ids|, i)])]
    ensures Cut(full, cancelFrom) == full && !Stopped(full, cancelFrom) && !AddChunks(playlist, ids, i, fails).ok
  {
    var c := AddItems(playlist, ids[i..SliceEnd(|ids|, i)]);
    PolledStep(calls, c, [], cancelFrom);
    assert calls + [c] + [] == full;
    CutAll(full, cancelFrom);
  }

  /** Slice `i` is sent: its add and the wait join the calls, one more flag read. */
  lemma SliceSent(playlist: string, ids: seq<string>, i: nat, fails: Call -> bool, cancelFrom: Option<nat>,
                  calls: seq<Call>)
    requires i < |ids| && !fails(AddItems(playlist, ids[i..SliceEnd(|ids|, i)]))
    requires !FlagSet(cancelFrom, CountPolled(calls))
    ensures var c := AddItems(playlist, ids[i..SliceEnd(|ids|, i)]);
      calls + AddChunks(playlist, ids, i, fails).calls == (calls + [c] + [Wait]) + AddChunks(playlist, ids, SliceEnd(|ids|, i), fails).calls &&
      AddChunks(playlist, ids, i, fails).ok == AddChunks(playlist, ids, SliceEnd(|ids|, i), fails).ok &&
      CountPolled(calls + [c] + [Wait]) == CountPolled(calls) + 1 &&
      (cancelFrom.None? || CountPolled(calls + [c] + [Wait]) <= cancelFrom.value)
  {
    var c := AddItems(playlist, ids[i..SliceEnd(|ids|, i)]);
    PolledStep(calls, c, [Wait], cancelFrom);
  }

  /** The slice loop with a flag read before each slice. */
  method SendChunksPolled(playlist: string, ids: seq<string>, fails: Call -> bool, cancelFrom: Option<nat>)
    returns (r: Run, stopped: bool)
    ensures var full := AddChunks(playlist, ids, 0, fails);
      r.calls == Cut(full.calls, cancelFrom) && stopped == Stopped(full.calls, cancelFrom) &&
      (!stopped ==> r.ok == full.ok)
  {
    ghost var full := AddChunks(playlist, ids, 0, fails);
    var calls: seq<Call> := [];
    var polls := 0;
    var i := 0;
    while i < |ids|
      invariant i <= |ids|
      invariant calls + AddChunks(playlist, ids, i, fails).calls == full.calls
      invariant AddChunks(playlist, ids, i, fails).ok == full.ok
      invariant polls == CountPolled(calls) && (cancelFrom.None? || polls <= cancelFrom.value)
      decreases |ids| - i
    {
      var chunk := ids[i..SliceEnd(|ids|, i)];
      var c := AddItems(playlist, chunk);
      if FlagSet(cancelFrom, polls) {
        SliceFlagSet(playlist, ids, i, fails, cancelFrom, calls, full.calls);
        return Run(calls, true), true;
      }
      if fails(c) {
        SliceFails(playlist, ids, i, fails, cancelFrom, calls, full.calls);
        return Run(calls + [c], false), false;
      }
      SliceSent(playlist, ids, i, fails, cancelFrom, calls);
      calls := calls + [c] + [Wait];
      polls := polls + 1;
      i := SliceEnd(|ids|, i);
    }
    assert AddChunks(playlist, ids, i, fails).calls == [];
    assert calls + [] == calls;
    assert calls == full.calls;
    assert CountPolled(full.calls) == polls;
    CutAll(full.calls, cancelFrom);
    return Run(calls, true), false;
  }

  /** No flag read within `s`. */
  lemma NoPolls(s: seq<Call>, cancelFrom: Option<nat>)
    requires forall k :: 0 <= k < |s| ==> !Polled(s[k])
    ensures CountPolled(s) == 0 && Cut(s, cancelFrom) == s && !Stopped(s, cancelFrom)
  {
    if s != [] {
      NoPolls(s[1..], cancelFrom);
    }
    CutAll(s, cancelFrom);
  }

  /** A playlist's first call `c`, polled with the flag clear, then its slices `adds`, then calls `rest` without reads. */
  lemma AfterFirst(c: Call, adds: seq<Call>, rest: seq<Call>, made: seq<Call>, st: bool, cancelFrom: Option<nat>)
    requires Polled(c) && !FlagSet(cancelFrom, 0)
    requires forall k :: 0 <= k < |rest| ==> !Polled(rest[k])
    requires made == Cut(adds, Later(cancelFrom, 1)) && st == Stopped(adds, Later(cancelFrom, 1))
    ensures Cut([c] + (adds + rest), cancelFrom) == if st then [c] + made else [c] + made + rest
    ensures Stopped([c] + (adds + rest), cancelFrom) == st
  {
    PolledStep([], c, [], cancelFrom);
    assert [] + [c] + [] == [c];
    CutLater([c], adds + rest, cancelFrom);
    if st {
      CutEarly(adds, rest, Later(cancelFrom, 1));
    } else {
      CutAll(adds, Later(cancelFrom, 1));
      CutLater(adds, rest, Later(cancelFrom, 1));
      NoPolls(rest, Later(Later(cancelFrom, 1), CountPolled(adds)));
    }
  }

  /** One entry of `playlists_to_create`, the flag read before the creation and before each slice. */
  method CreateOnePolled(p: NewPlaylist, env: Env, cancelFrom: Option<nat>) returns (calls: seq<Call>, stopped: bool)
    ensures calls == Cut(CreateOne(p, env), cancelFrom) && stopped == Stopped(CreateOne(p, env), cancelFrom)
  {
    ghost var whole := CreateOne(p, env);
    var c := CreatePlaylist(p.name);
    if FlagSet(cancelFrom, 0) {
      assert [] + whole == whole;
      CutAtPoll([], whole, cancelFrom);
      return [], true;
    }
    if env.fails(c) {
      PolledStep([], c, [Sleep(ErrorPause)], cancelFrom);
      NoPolls([Sleep(ErrorPause)], cancelFrom);
      assert [] + [c] + [Sleep(ErrorPause)] == whole;
      CutAll(whole, cancelFrom);
      return [c, Sleep(ErrorPause)], false;
    }
    ghost var adds := AddChunks(env.newId(p.name), env.listOf(p.tracks), 0, env.fails);
    var r, st := SendChunksPolled(env.newId(p.name), env.listOf(p.tracks), env.fails, Later(cancelFrom, 1));
    ghost var rest := if adds.ok then [Wait] else [Sleep(ErrorPause)];
    AfterFirst(c, adds.calls, rest, r.calls, st, cancelFrom);
    assert whole == [c] + (adds.calls + rest);
    if st {
      return [c] + r.calls, true;
    }
    var tail := if r.ok then [Wait] else [Sleep(ErrorPause)];
    return [c] + r.calls + tail, false;
  }

  /** One entry of `playlists_to_update`, the flag read before the update and before each slice. */
  method UpdateOnePolled(u: Update, env: Env, cancelFrom: Option<nat>) returns (calls: seq<Call>, stopped: bool)
    ensures calls == Cut(UpdateOne(u, env), cancelFrom) && stopped == Stopped(UpdateOne(u, env), cancelFrom)
  {
    ghost var whole := UpdateOne(u, env);
    var c := ReadTracks(u.playlist);
    if FlagSet(cancelFrom, 0) {
      assert [] + whole == whole;
      CutAtPoll([], whole, cancelFrom);
      return [], true;
    }
    if env.fails(c) {
      PolledStep([], c, [Sleep(ErrorPause)], cancelFrom);
      NoPolls([Sleep(ErrorPause)], cancelFrom);
      assert [] + [c] + [Sleep(ErrorPause)] == whole;
      CutAll(whole, cancelFrom);
      return [c, Sleep(ErrorPause)], false;
    }
    var newTrackIds := u.tracks - env.tracksOf(u.playlist);
    if newTrackIds == {} {
      PolledStep([], c, [], cancelFrom);
      assert [] + [c] + [] == whole;
      CutAll(whole, cancelFrom);
      return [c], false;
    }
    ghost var adds := AddChunks(u.playlist, env.listOf(newTrackIds), 0, env.fails);
    var r, st := SendChunksPolled(u.playlist, env.listOf(newTrackIds), env.fails, Later(cancelFrom, 1));
    ghost var rest: seq<Call> := if adds.ok then [] else [Sleep(ErrorPause)];
    AfterFirst(c, adds.calls, rest, r.calls, st, cancelFrom);
    assert whole == [c] + (adds.calls + rest);
    if st {
      return [c] + r.calls, true;
    }
    var tail: seq<Call> := if r.ok then [] else [Sleep(ErrorPause)];
    return [c] + r.calls + tail, false;
  }

  /** One playlist of a pass, run against the reads left after `calls`. */
  lemma PassStep(calls: seq<Call>, one: seq<Call>, later: seq<Call>, made: seq<Call>, st: bool, cancelFrom: Option<nat>)
    requires !Stopped(calls, cancelFrom)
    requires made == Cut(one, Later(cancelFrom, CountPolled(calls)))
    requires st == Stopped(one, Later(cancelFrom, CountPolled(calls)))
    ensures st ==> Cut(calls + (one + later), cancelFrom) == calls + made && Stopped(calls + (one + later), cancelFrom)
    ensures !st ==> made == one && !Stopped(calls + made, cancelFrom)
    ensures !st ==> CountPolled(calls + made) == CountPolled(calls) + CountPolled(made)
    ensures !st ==> calls + made + later == calls + (one + later)
  {
    CutLater(calls, one + later, cancelFrom);
    if st {
      CutEarly(one, later, Later(cancelFrom, CountPolled(calls)));
    } else {
      CutAll(one, Later(cancelFrom, CountPolled(calls)));
      CutLater(calls, one, cancelFrom);
      CountPolledAppend(calls, one);
    }
  }

  /** One pass of the loop over `ps`: either the flag is seen and the pass stops, or the calls grow by one playlist's. */
  method CreateNextPolled(ps: seq<NewPlaylist>, i: nat, env: Env, cancelFrom: Option<nat>, calls: seq<Call>, polls: nat)
    returns (next: seq<Call>, nextPolls: nat, st: bool)
    requires i < |ps| && calls + CreateAll(ps, i, env) == CreateAll(ps, 0, env)
    requires polls == CountPolled(calls) && !Stopped(calls, cancelFrom)
    ensures st ==> next == Cut(CreateAll(ps, 0, env), cancelFrom) && Stopped(CreateAll(ps, 0, env), cancelFrom)
    ensures !st ==> next + CreateAll(ps, i + 1, env) == CreateAll(ps, 0, env)
    ensures !st ==> nextPolls == CountPolled(next) && !Stopped(next, cancelFrom)
  {
    ghost var one := CreateOne(ps[i], env);
    ghost var later := CreateAll(ps, i + 1, env);
    CreateAllStep(ps, i, env);
    var made;
    made, st := CreateOnePolled(ps[i], env, Later(cancelFrom, polls));
    PassStep(calls, one, later, made, st, cancelFrom);
    next := calls + made;
    nextPolls := polls + CountPolled(made);
  }

  /** `for playlist_name, track_ids in playlists_to_create`, returning once the flag is seen set. */
  method CreateEachPolled(ps: seq<NewPlaylist>, env: Env, cancelFrom: Option<nat>) returns (calls: seq<Call>, stopped: bool)
    ensures calls == Cut(CreateAll(ps, 0, env), cancelFrom) && stopped == Stopped(CreateAll(ps, 0, env), cancelFrom)
  {
    calls := [];
    var polls := 0;
    for i: nat := 0 to |ps|
      invariant calls + CreateAll(ps, i, env) == CreateAll(ps, 0, env)
      invariant polls == CountPolled(calls) && !Stopped(calls, cancelFrom)
    {
      var next, nextPolls, st := CreateNextPolled(ps, i, env, cancelFrom, calls, polls);
      if st {
        return next, true;
      }
      calls, polls := next, nextPolls;
    }
    assert CreateAll(ps, |ps|, env) == [];
    assert calls == CreateAll(ps, 0, env);
    CutAll(calls, cancelFrom);
    stopped := false;
  }

  /** One pass of the loop over `us`: either the flag is seen and the pass stops, or the calls grow by one playlist's. */
  method UpdateNextPolled(us: seq<Update>, i: nat, env: Env, cancelFrom: Option<nat>, calls: seq<Call>, polls: nat)
    returns (next: seq<Call>, nextPolls: nat, st: bool)
    requires i < |us| && calls + UpdateAll(us, i, env) == UpdateAll(us, 0, env)
    requires polls == CountPolled(calls) && !Stopped(calls, cancelFrom)
    ensures st ==> next == Cut(UpdateAll(us, 0, env), cancelFrom) && Stopped(UpdateAll(us, 0, env), cancelFrom)
    ensures !st ==> next + UpdateAll(us, i + 1, env) == UpdateAll(us, 0, env)
    ensures !st ==> nextPolls == CountPolled(next) && !Stopped(next, cancelFrom)
  {
    ghost var one := UpdateOne(us[i], env);
    ghost var later := UpdateAll(us, i + 1, env);
    UpdateAllStep(us, i, env);
    var made;
    made, st := UpdateOnePolled(us[i], env, Later(cancelFrom, polls));
    PassStep(calls, one, later, made, st, cancelFrom);
    next := calls + made;
    nextPolls := polls + CountPolled(made);
  }

  /** `for playlist_name, playlist_id, track_ids in playlists_to_update`, returning once the flag is seen set. */
  method UpdateEachPolled(us: seq<Update>, env: Env, cancelFrom: Option<nat>) returns (calls: seq<Call>, stopped: bool)
    ensures calls == Cut(UpdateAll(us, 0, env), cancelFrom) && stopped == Stopped(UpdateAll(us, 0, env), cancelFrom)
  {
    calls := [];
    var polls := 0;
    for i: nat := 0 to |us|
      invariant calls + UpdateAll(us, i, env) == UpdateAll(us, 0, env)
      invariant polls == CountPolled(calls) && !Stopped(calls, cancelFrom)
    {
      var next, nextPolls, st := UpdateNextPolled(us, i, env, cancelFrom, calls, polls);
      if st {
        return next, true;
      }
      calls, polls := next, nextPolls;
    }
    assert UpdateAll(us, |us|, env) == [];
    assert calls == UpdateAll(us, 0, env);
    CutAll(calls, cancelFrom);
    stopped := false;
  }

  /**
   * `create_genre_playlists_optimized` of the controller, with the keyword
   * argument accepted: a cancellation seen by the progress callback while
   * the tracks are processed raises a `RuntimeError`, which is caught and
   * ends the function before anything is written; otherwise the pass runs
   * with its flag reads.
   */
  method CreateGenrePlaylistsControlled(items: seq<GenreEntry>, existing: map<string, string>, env: Env,
                                        cancelledWhileProcessing: bool, cancelFrom: Option<nat>) returns (r: Run)
    ensures r == if cancelledWhileProcessing then Run([], true) else ControllerPass(items, existing, env, cancelFrom)
  {
    if cancelledWhileProcessing {
      return Run([], true);
    }
    var playlistsToCreate, playlistsToUpdate := Partition(items, existing);
    var userCall: seq<Call> := [];
    if playlistsToCreate != [] {
      if env.fails(CurrentUser) {
        NoPolls([CurrentUser], cancelFrom);
        return Run([CurrentUser], false);
      }
      userCall := [CurrentUser];
    }
    NoPolls(userCall, cancelFrom);
    ghost var creates := CreateAll(playlistsToCreate, 0, env);
    ghost var updates := UpdateAll(playlistsToUpdate, 0, env);
    assert userCall + creates + updates == userCall + (creates + updates);
    CutLater(userCall, creates + updates, cancelFrom);
    assert Later(cancelFrom, 0) == cancelFrom;
    var written := WriteAllPolled(playlistsToCreate, playlistsToUpdate, env, cancelFrom);
    return Run(userCall + written, true);
  }

  /** The creation loop, then the update loop unless the flag was seen set in the first. */
  method WriteAllPolled(ps: seq<NewPlaylist>, us: seq<Update>, env: Env, cancelFrom: Option<nat>)
    returns (calls: seq<Call>)
    ensures calls == Cut(CreateAll(ps, 0, env) + UpdateAll(us, 0, env), cancelFrom)
  {
    ghost var creates := CreateAll(ps, 0, env);
    ghost var updates := UpdateAll(us, 0, env);
    var created, stopped := CreateEachPolled(ps, env, cancelFrom);
    if stopped {
      CutEarly(creates, updates, cancelFrom);
      return created;
    }
    CutAll(creates, cancelFrom);
    CutLater(creates, updates, cancelFrom);
    var updated, _ := UpdateEachPolled(us, env, Later(cancelFrom, CountPolled(created)));
    return created + updated;
  }

  // ----- the call to create_genre_playlists, as written -----

  /** The keyword parameters `create_genre_playlists(playlist_id)` of model/Playlist_Tools.py accepts. */
  const ProcessingKeywords: set<string> := {"playlist_id"}

  /** Python's binding of keyword arguments: the first one the function does not accept raises `TypeError`. */
  function KeywordError(accepted: set<string>, passed: seq<string>): (e: Option<string>)
    ensures e.None? <==> forall k :: 0 <= k < |passed| ==> passed[k] in accepted
    ensures e.Some? ==> e.value == "TypeError"
  {
    if passed == [] then None
    else if passed[0] !in accepted then Some("TypeError")
    else KeywordError(accepted, passed[1..])
  }

  /** How a call of the controller ends: it returns after making `run`'s calls, or an exception escapes. */
  datatype Outcome = Returned(run: Run) | Raised(error: string)

  /**
   * The controller as written: line 30 passes `progress_callback=`, which
   * `create_genre_playlists` does not accept, and the `TypeError` raised is
   * not the `RuntimeError` the `except` catches; so the exception escapes
   * before any playlist is read or written, whatever the input.
   */
  function ControllerAsWritten(items: seq<GenreEntry>, existing: map<string, string>, env: Env,
                               cancelledWhileProcessing: bool, cancelFrom: Option<nat>): (o: Outcome)
    ensures o == Raised("TypeError")
  {
    match KeywordError(ProcessingKeywords, ["progress_callback"])
      case Some(e) => if e == "RuntimeError" then Returned(Run([], true)) else Raised(e)
      case None => Returned(if cancelledWhileProcessing then Run([], true) else ControllerPass(items, existing, env, cancelFrom))
  }

  /**
   * The discrepancy: with a genre to create and a working `current_user`,
   * the intended pass creates a playlist, but the controller as written
   * raises and creates none.
   */
  lemma AsWrittenCreatesNothing(items: seq<GenreEntry>, existing: map<string, string>, env: Env)
    requires CreatesFrom(items, 0, existing) != [] && !env.fails(CurrentUser)
    ensures ControllerAsWritten(items, existing, env, false, None).Raised?
    ensures exists c :: c in ControllerPass(items, existing, env, None).calls && c.CreatePlaylist?
  {
    var ps := CreatesFrom(items, 0, existing);
    var us := UpdatesFrom(items, 0, existing);
    CreateAllStep(ps, 0, env);
    var calls := [CurrentUser] + CreateAll(ps, 0, env) + UpdateAll(us, 0, env);
    assert calls[1] == CreatePlaylist(ps[0].name);
  }

  // ----- what a cancellation leaves -----

  lemma {:induction false} ZeroPolls(s: seq<Call>)
    requires CountPolled(s) == 0
    ensures forall k :: 0 <= k < |s| ==> !Polled(s[k])
  {
    if s != [] {
      ZeroPolls(s[1..]);
      assert forall k :: 1 <= k < |s| ==> s[k] == s[1..][k - 1];
    }
  }

  /**
   * A cancelled pass makes a prefix of the calls of the uncancelled one:
   * exactly its first j flag-preceded calls, as many as there are when
   * fewer, and stops right before the next; the outcome is the same.
   */
  lemma CancelledRun(items: seq<GenreEntry>, existing: map<string, string>, env: Env, j: nat)
    ensures var full := Pass(items, existing, env).calls;
      var cut := ControllerPass(items, existing, env, Some(j)).calls;
      |cut| <= |full| && cut == full[..|cut|] &&
      CountPolled(cut) == (if j <= CountPolled(full) then j else CountPolled(full)) &&
      (|cut| < |full| ==> Polled(full[|cut|]))
    ensures ControllerPass(items, existing, env, Some(j)).ok == Pass(items, existing, env).ok
  {
    CutMeaning(Pass(items, existing, env).calls, j);
  }

  /** A flag never seen set, or first set after the last read, leaves the pass whole. */
  lemma NeverCancelled(items: seq<GenreEntry>, existing: map<string, string>, env: Env, cancelFrom: Option<nat>)
    requires cancelFrom.None? || cancelFrom.value >= CountPolled(Pass(items, existing, env).calls)
    ensures ControllerPass(items, existing, env, cancelFrom) == Pass(items, existing, env)
  {
    if cancelFrom.Some? {
      CutMeaning(Pass(items, existing, env).calls, cancelFrom.value);
    }
  }

  /** A flag set before the first read lets no playlist be read, created or written. */
  lemma CancelledAtOnce(items: seq<GenreEntry>, existing: map<string, string>, env: Env)
    ensures forall c :: c in ControllerPass(items, existing, env, Some(0)).calls ==>
      !c.CreatePlaylist? && !c.ReadTracks? && !c.AddItems?
  {
    var cut := ControllerPass(items, existing, env, Some(0)).calls;
    CutMeaning(Pass(items, existing, env).calls, 0);
    ZeroPolls(cut);
  }
}
