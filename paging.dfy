/**
 * The paginated readers of model/Playlist_Tools.py and Playlist_Tools.py:
 * `get_playlist_tracks` (a retry loop around a page loop),
 * `get_existing_playlists` (name to id over the user's playlists) and
 * `get_playlist_track_ids`. A listing is its pages in order; the catalog
 * sets `next` on every page but the last.
 */
module Paging {
  import opened Wrappers
  import opened Lists
  import opened Records
  import opened SpotifyClient

  /**
   * One attempt of `get_playlist_tracks`: the pages it read before it
   * stopped, and the error that stopped it, if any.
   */
  datatype AttemptTrace<T> = AttemptTrace(pages: seq<seq<T>>, failure: Option<string>)

  function AttemptOutcome<T>(trace: AttemptTrace<T>): (r: Outcome<()>)
    ensures r.Returned? <==> trace.failure.None?
    ensures r.Failed? ==> r.message == trace.failure.value
  {
    match trace.failure
      case None => Returned(())
      case Some(m) => Failed(m)
  }

  function OutcomesOf<T>(traces: nat -> AttemptTrace<T>): nat -> Outcome<()>
  {
    (k: nat) => AttemptOutcome(traces(k))
  }

  /** Every item read by the first `n` attempts, in order: the list is never cleared between attempts. */
  function Gathered<T>(traces: nat -> AttemptTrace<T>, n: nat): seq<T>
  {
    if n == 0 then [] else Gathered(traces, n - 1) + Flatten(traces(n - 1).pages)
  }

  const PlaylistMaxRetries: nat := 5
  const PlaylistBaseDelay: nat := 1

  /**
   * `get_playlist_tracks`: the retry policy of `get_artist_with_retry` with
   * 5 attempts and base delay 1; on success the result is everything read by
   * every attempt so far.
   */
  function PlaylistTracks<T>(traces: nat -> AttemptTrace<T>): (r: RetryResult<seq<T>>)
    ensures !r.NoResult?
    ensures r.Raised? ==> exists k :: 0 <= k < PlaylistMaxRetries && traces(k).failure == Some(r.message)
  {
    var run := RetryRun(OutcomesOf(traces), PlaylistMaxRetries, 0);
    match run.result
      case Success(_) => Success(Gathered(traces, run.calls))
      case Raised(m) =>
        assert OutcomesOf(traces)(run.calls - 1) == Failed(m);
        Raised(m)
      case NoResult => NoResult
  }

  /** A first attempt that completes returns exactly the playlist's items, page after page. */
  lemma FirstAttemptCompletes<T>(traces: nat -> AttemptTrace<T>)
    requires traces(0).failure.None?
    ensures PlaylistTracks(traces) == Success(Flatten(traces(0).pages))
  {
    var outcomes := OutcomesOf(traces);
    assert outcomes(0) == Returned(());
    assert RetryRun(outcomes, PlaylistMaxRetries, 0) == Run(Success(()), 1);
    assert Gathered(traces, 1) == Gathered(traces, 0) + Flatten(traces(0).pages) == Flatten(traces(0).pages);
  }

  /**
   * Items read by an attempt that timed out stay in the list: when the
   * second attempt completes, the result holds the first attempt's partial
   * pages followed by the whole playlist.
   */
  lemma PartialPagesKept<T>(traces: nat -> AttemptTrace<T>, m: string)
    requires traces(0).failure == Some(m) && Transient(m)
    requires traces(1).failure.None?
    ensures PlaylistTracks(traces) == Success(Flatten(traces(0).pages) + Flatten(traces(1).pages))
  {
    var outcomes := OutcomesOf(traces);
    assert outcomes(0) == Failed(m);
    assert outcomes(1) == Returned(());
    assert RetryRun(outcomes, PlaylistMaxRetries, 0) == RetryRun(outcomes, PlaylistMaxRetries, 1);
    assert RetryRun(outcomes, PlaylistMaxRetries, 1) == Run(Success(()), 2);
    assert Gathered(traces, 1) == Gathered(traces, 0) + Flatten(traces(0).pages) == Flatten(traces(0).pages);
    assert Gathered(traces, 2) == Gathered(traces, 1) + Flatten(traces(1).pages);
  }

  /** A playlist that keeps timing out is read five times and the last error is raised. */
  lemma FiveTimeoutsRaise<T>(traces: nat -> AttemptTrace<T>)
    requires forall k :: traces(k).failure.Some? && Transient(traces(k).failure.value)
    ensures PlaylistTracks(traces) == Raised(traces(4).failure.value)
  {
    var outcomes := OutcomesOf(traces);
    forall k ensures outcomes(k).Failed? && Transient(outcomes(k).message) {
      assert outcomes(k) == AttemptOutcome(traces(k));
    }
    AlwaysTransientRaisesLast(outcomes, PlaylistMaxRetries, 0);
  }

  lemma FlattenStep<T>(pages: seq<seq<T>>, p: nat)
    requires p < |pages|
    ensures Flatten(pages[..p + 1]) == Flatten(pages[..p]) + pages[p]
  {
    assert pages[..p + 1][..p] == pages[..p];
  }

  /** `tracks.extend(results['items'])` for each page read. */
  method ExtendByPages<T>(tracks: seq<T>, pages: seq<seq<T>>) returns (r: seq<T>)
    ensures r == tracks + Flatten(pages)
  {
    r := tracks;
    for p: nat := 0 to |pages|
      invariant r == tracks + Flatten(pages[..p])
    {
      FlattenStep(pages, p);
      r := r + pages[p];
    }
    assert pages[..|pages|] == pages;
  }

  /** `get_playlist_tracks`: attempts, each extending `tracks` page by page. */
  method GetPlaylistTracks<T>(traces: nat -> AttemptTrace<T>) returns (result: RetryResult<seq<T>>, delays: seq<nat>)
    ensures result == PlaylistTracks(traces)
    ensures |delays| == RetryRun(OutcomesOf(traces), PlaylistMaxRetries, 0).calls - 1
    ensures IsBackoff(delays, PlaylistBaseDelay)
  {
    var outcomes := OutcomesOf(traces);
    var tracks: seq<T> := [];
    result := NoResult;
    delays := [];
    var attempt: nat := 0;
    while attempt < PlaylistMaxRetries
      invariant attempt < PlaylistMaxRetries
      invariant RetryRun(outcomes, PlaylistMaxRetries, attempt) == RetryRun(outcomes, PlaylistMaxRetries, 0)
      invariant tracks == Gathered(traces, attempt)
      invariant |delays| == attempt
      invariant IsBackoff(delays, PlaylistBaseDelay)
      decreases PlaylistMaxRetries - attempt
    {
      var trace := traces(attempt);
      tracks := ExtendByPages(tracks, trace.pages);
      assert outcomes(attempt) == AttemptOutcome(trace);
      match trace.failure {
        case None =>
          assert RetryRun(outcomes, PlaylistMaxRetries, attempt) == Run(Success(()), attempt + 1);
          result := Success(tracks);
          return;
        case Some(m) =>
          if Transient(m) && attempt < PlaylistMaxRetries - 1 {
            BackoffSnoc(delays, PlaylistBaseDelay);
            delays := delays + [PlaylistBaseDelay * Pow2(attempt)];
          } else {
            assert RetryRun(outcomes, PlaylistMaxRetries, attempt) == Run(Raised(m), attempt + 1);
            result := Raised(m);
            return;
          }
      }
      assert Gathered(traces, attempt + 1) == Gathered(traces, attempt) + Flatten(trace.pages);
      attempt := attempt + 1;
    }
  }

  /** A user playlist as listed: its name and id. */
  datatype PlaylistEntry = PlaylistEntry(name: string, id: string)

  /** `existing_playlists[playlist['name']] = playlist['id']` over the entries in order. */
  function NameIndex(entries: seq<PlaylistEntry>): map<string, string>
  {
    if entries == [] then map[]
    else NameIndex(entries[..|entries| - 1])[entries[|entries| - 1].name := entries[|entries| - 1].id]
  }

  /** Every listed name is a key, and it maps to the id of the last playlist listed under it. */
  lemma {:induction false} NameIndexLastWins(entries: seq<PlaylistEntry>, name: string)
    ensures name in NameIndex(entries) <==> exists k :: 0 <= k < |entries| && entries[k].name == name
    ensures name in NameIndex(entries) ==>
      exists k :: 0 <= k < |entries| && entries[k].name == name && NameIndex(entries)[name] == entries[k].id &&
        forall j :: k < j < |entries| ==> entries[j].name != name
  {
    if entries != [] {
      var front := entries[..|entries| - 1];
      var last := entries[|entries| - 1];
      NameIndexLastWins(front, name);
      assert forall k :: 0 <= k < |front| ==> front[k] == entries[k];
      if last.name != name && name in NameIndex(entries) {
        var k :| 0 <= k < |front| && front[k].name == name && NameIndex(front)[name] == front[k].id &&
          forall j :: k < j < |front| ==> front[j].name != name;
        assert entries[k].name == name && NameIndex(entries)[name] == entries[k].id;
      }
    }
  }

  lemma NameIndexStep(entries: seq<PlaylistEntry>, j: nat)
    requires j < |entries|
    ensures NameIndex(entries[..j + 1]) == NameIndex(entries[..j])[entries[j].name := entries[j].id]
  {
    assert entries[..j + 1][..j] == entries[..j];
  }

  lemma NameIndexAppendStep(done: seq<PlaylistEntry>, page: seq<PlaylistEntry>, j: nat)
    requires j < |page|
    ensures NameIndex(done + page[..j + 1]) == NameIndex(done + page[..j])[page[j].name := page[j].id]
  {
    assert (done + page[..j + 1])[..|done| + j] == done + page[..j];
  }

  /** `get_existing_playlists`: read page after page until the one without `next`. */
  method GetExistingPlaylists(pages: seq<seq<PlaylistEntry>>) returns (existing: map<string, string>)
    ensures existing == NameIndex(Flatten(pages))
  {
    existing := map[];
    var k := 0;
    while k < |pages|
      invariant 0 <= k <= |pages|
      invariant existing == NameIndex(Flatten(pages[..k]))
      decreases |pages| - k
    {
      var page := pages[k];
      assert page[..0] == [] && Flatten(pages[..k]) + page[..0] == Flatten(pages[..k]);
      for j: nat := 0 to |page|
        invariant existing == NameIndex(Flatten(pages[..k]) + page[..j])
      {
        NameIndexAppendStep(Flatten(pages[..k]), page, j);
        existing := existing[page[j].name := page[j].id];
      }
      assert page[..|page|] == page;
      FlattenStep(pages, k);
      if k == |pages| - 1 {
        assert pages[..k + 1] == pages;
        return;
      }
      k := k + 1;
    }
    assert pages[..k] == pages;
  }

  lemma TrackIdSetStep(done: seq<Item>, page: seq<Item>, j: nat)
    requires j < |page|
    ensures TrackIdSet(done + page[..j + 1]) ==
      TrackIdSet(done + page[..j]) + (if page[j].Some? then {page[j].value.id} else {})
  {
    var a := done + page[..j];
    var b := done + page[..j + 1];
    assert b == a + [page[j]];
    forall t ensures t in TrackIdSet(b) <==> t in TrackIdSet(a) || (page[j].Some? && t == page[j].value.id) {
      if t in TrackIdSet(b) {
        var k :| 0 <= k < |b| && b[k].Some? && b[k].value.id == t;
        if k < |a| {
          assert a[k] == b[k];
        }
      }
      if t in TrackIdSet(a) {
        var k :| 0 <= k < |a| && a[k].Some? && a[k].value.id == t;
        assert b[k] == a[k];
      }
      if page[j].Some? && t == page[j].value.id {
        assert b[|a|] == page[j];
      }
    }
  }

  /** `get_playlist_track_ids`: the ids of the non-null items of every page. */
  method GetPlaylistTrackIds(pages: seq<seq<Item>>) returns (existingTracks: set<string>)
    ensures existingTracks == TrackIdSet(Flatten(pages))
  {
    existingTracks := {};
    var k := 0;
    while k < |pages|
      invariant 0 <= k <= |pages|
      invariant existingTracks == TrackIdSet(Flatten(pages[..k]))
      decreases |pages| - k
    {
      var page := pages[k];
      assert page[..0] == [] && Flatten(pages[..k]) + page[..0] == Flatten(pages[..k]);
      for j: nat := 0 to |page|
        invariant existingTracks == TrackIdSet(Flatten(pages[..k]) + page[..j])
      {
        TrackIdSetStep(Flatten(pages[..k]), page, j);
        if page[j].Some? {
          existingTracks := existingTracks + {page[j].value.id};
        }
      }
      assert page[..|page|] == page;
      FlattenStep(pages, k);
      if k == |pages| - 1 {
        assert pages[..k + 1] == pages;
        return;
      }
      k := k + 1;
    }
    assert pages[..k] == pages;
  }
}
