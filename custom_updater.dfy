/**
 * Custom_Genre_Updater.py: the playlist-addition pass over the loaded
 * custom-genres file (the same pass as CustomPlaylists models), and the
 * `--summary` report that counts artists and genres and ranks the genres
 * by count.
 */
module CustomGenreUpdater {
  import opened Wrappers
  import opened Text
  import opened Lists
  import opened Records
  import opened GenreNormalize
  import opened CustomGenreFile
  import opened PlaylistWrites
  import opened Sorting
  import opened Bucketing
  import opened CustomPlaylists

  // ----- update_playlists_with_custom_genres -----

  /** An empty or unreadable file stops the script before any call; otherwise the pass runs over the file's entries. */
  function UpdaterRun(file: FileState, tracks: seq<Item>, existing: map<string, string>, env: Env,
                      norm: string -> seq<string>): (r: Option<CustomPlaylists.Summary>)
    ensures r.None? <==> LoadCustomGenres(file) == map[]
  {
    var custom := LoadCustomGenres(file);
    if custom == map[] then None else Some(RedoPass(custom, tracks, existing, env, norm))
  }

  /** `update_playlists_with_custom_genres`: the file, then the shared pass. */
  method UpdatePlaylistsWithCustomGenres(file: FileState, tracks: seq<Item>, existing: map<string, string>, env: Env)
    returns (r: Option<CustomPlaylists.Summary>)
    ensures r == UpdaterRun(file, tracks, existing, env, Normalized)
  {
    var customGenres := LoadCustomGenres(file);
    if customGenres == map[] {
      return None;
    }
    var s := RedoPlaylistAdditions(customGenres, tracks, existing, env);
    r := Some(s);
  }

  /**
   * The updater creates a playlist only under a name the account does not
   * have, for a label gathering at least 100 tracks.
   */
  lemma UpdaterCreatesOnlyNew(file: FileState, tracks: seq<Item>, existing: map<string, string>, env: Env,
                              norm: string -> seq<string>, name: string)
    requires Enumerates(env.listOf)
    requires var r := UpdaterRun(file, tracks, existing, env, norm); r.Some? && CreatePlaylist(name) in r.value.calls
    ensures name !in existing
    ensures exists g :: (Title(g) == name &&
      |BucketOf(ArtistsPhase(LoadCustomGenres(file), tracks, existing, env, norm).genreTracks, g)| >= MinTracks)
  {
    RedoPassCreates(LoadCustomGenres(file), tracks, existing, env, norm, name);
  }

  // ----- print_custom_genres_summary -----

  /** One item of `genre_counts`. */
  datatype GenreCount = GenreCount(genre: string, count: nat)

  /** What the summary prints: entries, entries with and without genres, and the genres ranked by count. */
  datatype GenreSummary = GenreSummary(total: nat, withGenres: nat, withoutGenres: nat, ranked: seq<GenreCount>, top: seq<GenreCount>)

  /** The genres of the entries that have some, in the order listed. */
  function TakenGenres(custom: CustomGenres, ids: seq<string>): seq<string>
  {
    if ids == [] then []
    else
      var id := ids[|ids| - 1];
      TakenGenres(custom, ids[..|ids| - 1]) + (if id in custom && HasGenres(custom[id]) then custom[id].genres.value else [])
  }

  /** `artists_with_genres`. */
  function WithCount(custom: CustomGenres, ids: seq<string>): nat
  {
    if ids == [] then 0
    else
      var id := ids[|ids| - 1];
      WithCount(custom, ids[..|ids| - 1]) + (if id in custom && HasGenres(custom[id]) then 1 else 0)
  }

  /** `artists_without_genres`. */
  function WithoutCount(custom: CustomGenres, ids: seq<string>): nat
  {
    if ids == [] then 0
    else
      var id := ids[|ids| - 1];
      WithoutCount(custom, ids[..|ids| - 1]) + (if id in custom && HasGenres(custom[id]) then 0 else 1)
  }

  /** The position of `g` among the items, or -1. */
  function KeyIndex(items: seq<GenreCount>, g: string): (r: int)
    ensures -1 <= r < |items|
    ensures r >= 0 ==> items[r].genre == g
    ensures r < 0 ==> forall j :: 0 <= j < |items| ==> items[j].genre != g
  {
    if items == [] then -1
    else if items[0].genre == g then 0
    else
      var k := KeyIndex(items[1..], g);
      if k < 0 then -1 else k + 1
  }

  /** `genre_counts[genre] = genre_counts.get(genre, 0) + 1`. */
  function Bump(items: seq<GenreCount>, g: string): seq<GenreCount>
  {
    var k := KeyIndex(items, g);
    if k < 0 then items + [GenreCount(g, 1)] else items[k := GenreCount(g, items[k].count + 1)]
  }

  /** `genre_counts` after counting the genres `s` in order. */
  function TallyOf(s: seq<string>): seq<GenreCount>
  {
    if s == [] then [] else Bump(TallyOf(s[..|s| - 1]), s[|s| - 1])
  }

  lemma TallyStep(s: seq<string>, g: string)
    ensures TallyOf(s + [g]) == Bump(TallyOf(s), g)
  {
    assert (s + [g])[..|s|] == s;
  }

  lemma CountSnoc(s: seq<string>, g: string, a: string)
    ensures Count(s + [g], a) == Count(s, a) + (if a == g then 1 else 0)
  {
    assert (s + [g])[..|s|] == s;
  }

  /**
   * The counts hold every genre of `s` once, in first-seen order, each with
   * its number of occurrences in `s`.
   */
  lemma {:induction false} TallyMeaning(s: seq<string>)
    ensures |TallyOf(s)| == |Dedup(s)|
    ensures forall i :: 0 <= i < |Dedup(s)| ==> TallyOf(s)[i] == GenreCount(Dedup(s)[i], Count(s, Dedup(s)[i]))
  {
    if s != [] {
      var front := s[..|s| - 1];
      var g := s[|s| - 1];
      assert s == front + [g];
      TallyMeaning(front);
      DedupSnoc(front, g);
      TallyStep(front, g);
      if g in front {
        TallyOld(front, g);
      } else {
        TallyNew(front, g);
      }
    }
  }

  /** A genre seen before: its count goes up by one, in place. */
  lemma TallyOld(front: seq<string>, g: string)
    requires g in front
    requires |TallyOf(front)| == |Dedup(front)|
    requires forall i :: 0 <= i < |Dedup(front)| ==> TallyOf(front)[i] == GenreCount(Dedup(front)[i], Count(front, Dedup(front)[i]))
    ensures |Bump(TallyOf(front), g)| == |Dedup(front)|
    ensures forall i :: 0 <= i < |Dedup(front)| ==>
      Bump(TallyOf(front), g)[i] == GenreCount(Dedup(front)[i], Count(front + [g], Dedup(front)[i]))
  {
    var t := TallyOf(front);
    var d := Dedup(front);
    var k := KeyIndex(t, g);
    var m :| 0 <= m < |front| && front[m] == g;
    assert front[m] in d;
    assert k >= 0;
    forall i | 0 <= i < |d|
      ensures Bump(t, g)[i] == GenreCount(d[i], Count(front + [g], d[i]))
    {
      CountSnoc(front, g, d[i]);
      if i != k {
        assert d[i] != d[k];
      }
    }
  }

  /** A new genre: it is appended with count one. */
  lemma TallyNew(front: seq<string>, g: string)
    requires g !in front
    requires |TallyOf(front)| == |Dedup(front)|
    requires forall i :: 0 <= i < |Dedup(front)| ==> TallyOf(front)[i] == GenreCount(Dedup(front)[i], Count(front, Dedup(front)[i]))
    ensures |Bump(TallyOf(front), g)| == |Dedup(front) + [g]|
    ensures forall i :: 0 <= i < |Dedup(front) + [g]| ==>
      Bump(TallyOf(front), g)[i] == GenreCount((Dedup(front) + [g])[i], Count(front + [g], (Dedup(front) + [g])[i]))
  {
    var t := TallyOf(front);
    var d := Dedup(front);
    assert KeyIndex(t, g) < 0;
    CountMember(front, g);
    forall i | 0 <= i < |d| + 1
      ensures Bump(t, g)[i] == GenreCount((d + [g])[i], Count(front + [g], (d + [g])[i]))
    {
      CountSnoc(front, g, (d + [g])[i]);
    }
  }

  /** Counting the genres of one entry. */
  method CountGenres(genreCounts: seq<GenreCount>, genres: seq<string>, ghost s: seq<string>) returns (r: seq<GenreCount>)
    requires genreCounts == TallyOf(s)
    ensures r == TallyOf(s + genres)
  {
    r := genreCounts;
    assert s + genres[..0] == s;
    for j: nat := 0 to |genres|
      invariant r == TallyOf(s + genres[..j])
    {
      TallyPrefixStep(s, genres, j);
      r := CountGenre(r, genres[j]);
    }
    assert genres[..|genres|] == genres;
  }

  lemma TallyPrefixStep(s: seq<string>, genres: seq<string>, j: nat)
    requires j < |genres|
    ensures TallyOf(s + genres[..j + 1]) == Bump(TallyOf(s + genres[..j]), genres[j])
  {
    TallyStep(s + genres[..j], genres[j]);
    assert s + genres[..j + 1] == (s + genres[..j]) + [genres[j]];
  }

  /** `genre_counts[genre] = genre_counts.get(genre, 0) + 1` on the list of items. */
  method CountGenre(genreCounts: seq<GenreCount>, genre: string) returns (r: seq<GenreCount>)
    ensures r == Bump(genreCounts, genre)
  {
    var k := KeyIndex(genreCounts, genre);
    if k < 0 {
      r := genreCounts + [GenreCount(genre, 1)];
    } else {
      r := genreCounts[k := GenreCount(genre, genreCounts[k].count + 1)];
    }
  }

  /** `key=lambda x: x[1], reverse=True`: a larger count comes first. */
  function ByCount(a: GenreCount, b: GenreCount): bool
  {
    a.count >= b.count
  }

  lemma ByCountPreorder()
    ensures TotalPreorder(ByCount)
  {
  }

  const TopSize: nat := 10

  /** `genre_counts` ranked, and its first ten items. */
  function Ranked(items: seq<GenreCount>): seq<GenreCount>
  {
    SortBy(items, ByCount)
  }

  function Top(ranked: seq<GenreCount>): seq<GenreCount>
  {
    if |ranked| <= TopSize then ranked else ranked[..TopSize]
  }

  /** The summary over the file's entries, listed in `ids` order; nothing when the file has no entry. */
  function CustomGenresSummary(custom: CustomGenres, ids: seq<string>): (r: Option<GenreSummary>)
    ensures r.None? <==> custom == map[]
  {
    if custom == map[] then None
    else
      var ranked := Ranked(TallyOf(TakenGenres(custom, ids)));
      Some(GenreSummary(|custom|, WithCount(custom, ids), WithoutCount(custom, ids), ranked, Top(ranked)))
  }

  lemma TakenStep(custom: CustomGenres, ids: seq<string>, k: nat)
    requires k < |ids|
    ensures var id := ids[k];
      TakenGenres(custom, ids[..k + 1]) ==
        TakenGenres(custom, ids[..k]) + (if id in custom && HasGenres(custom[id]) then custom[id].genres.value else []) &&
      WithCount(custom, ids[..k + 1]) == WithCount(custom, ids[..k]) + (if id in custom && HasGenres(custom[id]) then 1 else 0) &&
      WithoutCount(custom, ids[..k + 1]) == WithoutCount(custom, ids[..k]) + (if id in custom && HasGenres(custom[id]) then 0 else 1)
  {
    assert ids[..k + 1][..k] == ids[..k];
  }

  /** `print_custom_genres_summary`: the counting loop over the loaded file, then the ranking. */
  method PrintCustomGenresSummary(file: FileState, listOf: set<string> -> seq<string>) returns (r: Option<GenreSummary>)
    ensures var custom := LoadCustomGenres(file); r == CustomGenresSummary(custom, listOf(custom.Keys))
  {
    var customGenres := LoadCustomGenres(file);
    if customGenres == map[] {
      return None;
    }
    var ids := listOf(customGenres.Keys);
    var genreCounts: seq<GenreCount> := [];
    var artistsWithGenres: nat := 0;
    var artistsWithoutGenres: nat := 0;
    for k: nat := 0 to |ids|
      invariant genreCounts == TallyOf(TakenGenres(customGenres, ids[..k]))
      invariant artistsWithGenres == WithCount(customGenres, ids[..k])
      invariant artistsWithoutGenres == WithoutCount(customGenres, ids[..k])
    {
      TakenStep(customGenres, ids, k);
      var artistId := ids[k];
      if artistId in customGenres && HasGenres(customGenres[artistId]) {
        artistsWithGenres := artistsWithGenres + 1;
        genreCounts := CountGenres(genreCounts, customGenres[artistId].genres.value, TakenGenres(customGenres, ids[..k]));
      } else {
        assert TakenGenres(customGenres, ids[..k + 1]) == TakenGenres(customGenres, ids[..k]);
        artistsWithoutGenres := artistsWithoutGenres + 1;
      }
    }
    assert ids[..|ids|] == ids;
    var sortedGenres := Ranked(genreCounts);
    r := Some(GenreSummary(|customGenres|, artistsWithGenres, artistsWithoutGenres, sortedGenres, Top(sortedGenres)));
  }

  // ----- what the summary states -----

  lemma {:induction false} WithWithout(custom: CustomGenres, ids: seq<string>)
    ensures WithCount(custom, ids) + WithoutCount(custom, ids) == |ids|
  {
    if ids != [] {
      WithWithout(custom, ids[..|ids| - 1]);
    }
  }

  /** When the dictionary lists each of its keys once, entries with and without genres add up to all entries. */
  lemma SummaryTotals(custom: CustomGenres, listOf: set<string> -> seq<string>)
    requires Enumerates(listOf) && ListsOnce(listOf) && custom != map[]
    ensures var r := CustomGenresSummary(custom, listOf(custom.Keys)).value;
      r.withGenres + r.withoutGenres == r.total == |custom|
  {
    var ids := listOf(custom.Keys);
    WithWithout(custom, ids);
    DistinctCard(ids);
  }

  /** A genre is counted iff some entry with genres lists it. */
  lemma {:induction false} TakenMember(custom: CustomGenres, ids: seq<string>, g: string)
    ensures g in TakenGenres(custom, ids) <==>
      exists k :: 0 <= k < |ids| && ids[k] in custom && HasGenres(custom[ids[k]]) && g in custom[ids[k]].genres.value
  {
    if ids != [] {
      var front := ids[..|ids| - 1];
      TakenMember(custom, front, g);
      assert forall k :: 0 <= k < |front| ==> front[k] == ids[k];
    }
  }

  /**
   * The ranking lists every counted genre once, from the largest count down;
   * equal counts keep the order in which the genres were first seen; the
   * top is the ranking's first ten items, and no genre left out of it has a
   * larger count than one in it.
   */
  lemma SummaryRanking(custom: CustomGenres, ids: seq<string>, e: GenreCount, a: GenreCount, b: GenreCount)
    requires custom != map[]
    ensures var r := CustomGenresSummary(custom, ids).value;
      multiset(r.ranked) == multiset(TallyOf(TakenGenres(custom, ids))) && SortedBy(r.ranked, ByCount)
    ensures var r := CustomGenresSummary(custom, ids).value;
      Filter(r.ranked, (y: GenreCount) => Tied(ByCount, y, e)) ==
        Filter(TallyOf(TakenGenres(custom, ids)), (y: GenreCount) => Tied(ByCount, y, e))
    ensures var r := CustomGenresSummary(custom, ids).value;
      |r.top| == if |r.ranked| <= TopSize then |r.ranked| else TopSize
    ensures var r := CustomGenresSummary(custom, ids).value;
      a in r.top && b in TallyOf(TakenGenres(custom, ids)) && b !in r.top ==> a.count >= b.count
  {
    var items := TallyOf(TakenGenres(custom, ids));
    var ranked := Ranked(items);
    ByCountPreorder();
    SortByMeaning(items, ByCount, e);
    if |ranked| > TopSize && a in ranked[..TopSize] && b in items && b !in ranked[..TopSize] {
      assert b in multiset(ranked);
      assert ranked == ranked[..TopSize] + ranked[TopSize..];
      assert b in ranked[TopSize..];
      TopComesFirst(ranked, ByCount, TopSize, a, b);
    }
  }
}
