/**
 * How model/Playlist_Tools.py reads genre playlists by name:
 * `find_matching_playlists` (also in Custom_Genre_Updater.py),
 * `get_playlist_genre` and `identify_genre_playlists`. A playlist dictionary
 * maps a playlist name to its id, as `get_existing_playlists` returns it.
 */
module PlaylistNames {
  import opened Wrappers
  import opened Text
  import opened GenreNormalize
  import opened PlaylistMatch

  /** The keywords both `get_playlist_genre` and `identify_genre_playlists` look for, in list order. */
  const GenrePatterns: seq<string> := [
    "metal", "rock", "pop", "hip hop", "rap", "jazz", "classical", "electronic",
    "folk", "country", "r&b", "blues", "reggae", "punk", "indie", "alternative",
    "brazilian", "japanese", "anime", "emo", "industrial", "glam", "sertanejo",
    "mpb", "hardcore", "celtic", "medieval", "comedy", "electro", "edm"
  ]

  // ----- find_matching_playlists -----

  /** The ids of the playlists whose lower-cased name equals some label, ignoring case. */
  function MatchingIds(labels: seq<string>, existing: map<string, string>): set<string>
  {
    set name | name in existing && AnyLowerEq(labels, Lower(name)) :: existing[name]
  }

  /** `existing` restricted to the names in `done` matches the labels exactly where `ids` says. */
  ghost predicate MatchedOn(ids: set<string>, labels: seq<string>, existing: map<string, string>, done: set<string>)
  {
    ids == set name | name in done && name in existing && AnyLowerEq(labels, Lower(name)) :: existing[name]
  }

  lemma MatchedOnStep(ids: set<string>, labels: seq<string>, existing: map<string, string>, done: set<string>, name: string, hit: bool)
    requires MatchedOn(ids, labels, existing, done) && name in existing && hit == AnyLowerEq(labels, Lower(name))
    ensures MatchedOn(if hit then ids + {existing[name]} else ids, labels, existing, done + {name})
  {
  }

  /** The loop over the playlists, with the inner loop over the labels and its `break`. */
  method MatchIds(labels: seq<string>, existing: map<string, string>) returns (matchingPlaylists: set<string>)
    ensures matchingPlaylists == MatchingIds(labels, existing)
  {
    matchingPlaylists := {};
    var rest := existing.Keys;
    ghost var done: set<string> := {};
    while rest != {}
      invariant done + rest == existing.Keys
      invariant MatchedOn(matchingPlaylists, labels, existing, done)
      decreases rest
    {
      var playlistName :| playlistName in rest;
      var playlistNameLower := Lower(playlistName);
      var hit := MatchLabels(labels, playlistNameLower);
      MatchedOnStep(matchingPlaylists, labels, existing, done, playlistName, hit);
      if hit {
        matchingPlaylists := matchingPlaylists + {existing[playlistName]};
      }
      done := done + {playlistName};
      rest := rest - {playlistName};
    }
  }

  /** `find_matching_playlists(genre, existing_playlists)`, the ids as a set. */
  method FindMatchingPlaylists(genre: string, existing: map<string, string>) returns (r: set<string>)
    ensures r == MatchingIds(Normalized(genre), existing)
  {
    var normalizedGenres := NormalizeGenre(genre);
    r := MatchIds(normalizedGenres, existing);
  }

  /**
   * An id is found iff some playlist with that id is named like a label of
   * the genre, ignoring case; a genre without labels matches nothing.
   */
  lemma MatchingIdsMeaning(labels: seq<string>, existing: map<string, string>, id: string)
    ensures id in MatchingIds(labels, existing) <==>
      exists name :: name in existing && existing[name] == id &&
        exists l :: l in labels && Lower(l) == Lower(name)
    ensures labels == [] ==> MatchingIds(labels, existing) == {}
  {
    if exists name :: name in existing && existing[name] == id && exists l :: l in labels && Lower(l) == Lower(name) {
      var name :| name in existing && existing[name] == id && exists l :: l in labels && Lower(l) == Lower(name);
      assert AnyLowerEq(labels, Lower(name));
    }
  }

  /** A sentinel tag, such as "genres", finds no playlist. */
  lemma SentinelMatchesNothing(genre: string, existing: map<string, string>)
    requires IsSentinel(genre)
    ensures MatchingIds(Normalized(genre), existing) == {}
  {
    MatchingIdsMeaning(Normalized(genre), existing, "");
  }

  // ----- get_playlist_genre -----

  /** The first pattern, at index `i` or later, contained in `text`. */
  function FirstContained(patterns: seq<string>, text: string, i: nat): (r: Option<nat>)
    ensures r.Some? ==> i <= r.value < |patterns| && Contains(text, patterns[r.value])
    ensures r.Some? ==> forall k :: i <= k < r.value ==> !Contains(text, patterns[k])
    ensures r.None? ==> forall k :: i <= k < |patterns| ==> !Contains(text, patterns[k])
    decreases |patterns| - i
  {
    if i >= |patterns| then None
    else if Contains(text, patterns[i]) then Some(i)
    else FirstContained(patterns, text, i + 1)
  }

  /** `get_playlist_genre`: the first keyword the lower-cased name contains, else the lower-cased name. */
  function PlaylistGenre(playlistName: string): string
  {
    var nameLower := Lower(playlistName);
    match FirstContained(GenrePatterns, nameLower, 0)
      case Some(k) => GenrePatterns[k]
      case None => nameLower
  }

  /** The pattern loop with its early return. */
  method GetPlaylistGenre(playlistName: string) returns (r: string)
    ensures r == PlaylistGenre(playlistName)
  {
    var nameLower := Lower(playlistName);
    var genrePatterns := GenrePatterns;
    var k := 0;
    while k < |genrePatterns|
      invariant 0 <= k <= |genrePatterns|
      invariant FirstContained(genrePatterns, nameLower, 0) == FirstContained(genrePatterns, nameLower, k)
    {
      if Contains(nameLower, genrePatterns[k]) {
        return genrePatterns[k];
      }
      k := k + 1;
    }
    return nameLower;
  }

  /**
   * What `get_playlist_genre` returns: a keyword the lower-cased name
   * contains, none earlier in the list being contained; or, when it contains
   * none, the lower-cased name itself.
   */
  lemma PlaylistGenreMeaning(playlistName: string)
    ensures var low := Lower(playlistName);
      (exists k :: 0 <= k < |GenrePatterns| && Contains(low, GenrePatterns[k]) &&
        PlaylistGenre(playlistName) == GenrePatterns[k] &&
        forall j :: 0 <= j < k ==> !Contains(low, GenrePatterns[j])) ||
      ((forall k :: 0 <= k < |GenrePatterns| ==> !Contains(low, GenrePatterns[k])) &&
        PlaylistGenre(playlistName) == low)
  {
  }

  /** A pattern not contained is passed over. */
  lemma FirstContainedSkip(patterns: seq<string>, text: string, i: nat)
    requires i < |patterns| && !Contains(text, patterns[i])
    ensures FirstContained(patterns, text, i) == FirstContained(patterns, text, i + 1)
  {
  }

  lemma RockFirstIn(patterns: seq<string>, low: string)
    requires |patterns| > 1 && patterns[0] == "metal" && patterns[1] == "rock"
    requires low == "pop rock"
    ensures FirstContained(patterns, low, 0) == Some(1)
  {
    MissingChar(low, patterns[0], 'm');
    FirstContainedSkip(patterns, low, 0);
    ContainsAt(low, patterns[1], 4);
  }

  /** "Pop Rock" is judged as 'rock': "rock" comes before "pop" in the list. */
  lemma PopRockIsRock()
    ensures PlaylistGenre("Pop Rock") == "rock"
  {
    assert Lower("Pop Rock") == "pop rock";
    RockFirstIn(GenrePatterns, Lower("Pop Rock"));
  }

  lemma HipHopFirstIn(patterns: seq<string>, low: string)
    requires |patterns| > 3 && patterns[0] == "metal" && patterns[1] == "rock" && patterns[2] == "pop" && patterns[3] == "hip hop"
    requires low == "rap and hip hop"
    ensures FirstContained(patterns, low, 0) == Some(3)
  {
    MissingChar(low, patterns[0], 'm');
    FirstContainedSkip(patterns, low, 0);
    MissingChar(low, patterns[1], 'k');
    FirstContainedSkip(patterns, low, 1);
    MissingPair(low, patterns[2], 0);
    FirstContainedSkip(patterns, low, 2);
    ContainsAt(low, patterns[3], 8);
  }

  /** "Rap And Hip Hop" is judged as 'hip hop': it precedes "rap" in the list. */
  lemma RapAndHipHopIsHipHop()
    ensures PlaylistGenre("Rap And Hip Hop") == "hip hop"
  {
    assert Lower("Rap And Hip Hop") == "rap and hip hop";
    HipHopFirstIn(GenrePatterns, Lower("Rap And Hip Hop"));
  }

  // ----- identify_genre_playlists -----

  /** The name contains one of the keywords, after lower-casing. */
  predicate IsGenreName(playlistName: string)
  {
    FirstContained(GenrePatterns, Lower(playlistName), 0).Some?
  }

  /** `identify_genre_playlists`: the playlists whose names contain a keyword. */
  function GenrePlaylists(existing: map<string, string>): (r: map<string, string>)
    ensures r.Keys <= existing.Keys
  {
    map name | name in existing && IsGenreName(name) :: existing[name]
  }

  /** `r` is the genre part of `existing` restricted to the names in `done`. */
  ghost predicate IdentifiedOn(r: map<string, string>, existing: map<string, string>, done: set<string>)
  {
    (forall name :: name in r <==> name in done && name in existing && IsGenreName(name)) &&
    forall name :: name in r ==> r[name] == existing[name]
  }

  lemma IdentifiedOnIs(r: map<string, string>, existing: map<string, string>)
    requires IdentifiedOn(r, existing, existing.Keys)
    ensures r == GenrePlaylists(existing)
  {
    var s := GenrePlaylists(existing);
    forall name | name in r ensures r[name] == s[name] {
    }
    assert r.Keys == s.Keys;
  }

  /** The keyword loop of one playlist, with its `break`. */
  method HasGenreKeyword(nameLower: string) returns (b: bool)
    ensures b == FirstContained(GenrePatterns, nameLower, 0).Some?
  {
    var genreKeywords := GenrePatterns;
    var k := 0;
    while k < |genreKeywords|
      invariant 0 <= k <= |genreKeywords|
      invariant FirstContained(genreKeywords, nameLower, 0) == FirstContained(genreKeywords, nameLower, k)
    {
      if Contains(nameLower, genreKeywords[k]) {
        return true;
      }
      k := k + 1;
    }
    return false;
  }

  method IdentifyGenrePlaylists(existing: map<string, string>) returns (genrePlaylists: map<string, string>)
    ensures genrePlaylists == GenrePlaylists(existing)
  {
    genrePlaylists := map[];
    var rest := existing.Keys;
    ghost var done: set<string> := {};
    while rest != {}
      invariant done + rest == existing.Keys
      invariant IdentifiedOn(genrePlaylists, existing, done)
      decreases rest
    {
      var playlistName :| playlistName in rest;
      var isGenre := HasGenreKeyword(Lower(playlistName));
      if isGenre {
        genrePlaylists := genrePlaylists[playlistName := existing[playlistName]];
      }
      done := done + {playlistName};
      rest := rest - {playlistName};
    }
    IdentifiedOnIs(genrePlaylists, existing);
  }

  /**
   * The two readings agree: a playlist is identified as a genre playlist iff
   * `get_playlist_genre` finds a keyword in its name; the others are judged
   * by their full lower-cased name.
   */
  lemma IdentifiedIffKeyword(existing: map<string, string>, playlistName: string)
    requires playlistName in existing
    ensures playlistName in GenrePlaylists(existing) <==>
      exists k :: 0 <= k < |GenrePatterns| && Contains(Lower(playlistName), GenrePatterns[k])
    ensures playlistName in GenrePlaylists(existing) ==> GenrePlaylists(existing)[playlistName] == existing[playlistName]
    ensures playlistName !in GenrePlaylists(existing) ==> PlaylistGenre(playlistName) == Lower(playlistName)
  {
  }
}
