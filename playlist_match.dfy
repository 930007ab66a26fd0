/**
 * `should_track_be_in_playlist` from Genre_Tools.py: a track belongs in a
 * genre playlist when one of its genres normalizes to a label spelled like
 * the playlist genre, ignoring case.
 */
module PlaylistMatch {
  import opened Text
  import opened Lists
  import opened GenreNormalize
  import GenreExamples

  /** Some label of `genre` equals the playlist genre, ignoring case. */
  predicate LabelMatches(genre: string, playlistGenre: string)
  {
    exists norm :: norm in Normalized(genre) && Lower(norm) == Lower(playlistGenre)
  }

  /** Some track genre has a label equal to the playlist genre, ignoring case. */
  predicate ShouldTrack(trackGenres: seq<string>, playlistGenre: string)
  {
    AnyBack(trackGenres, g => LabelMatches(g, playlistGenre))
  }

  /** The test finds a matching genre at some index, which is what the source's loops search for. */
  lemma ShouldTrackSomeIndex(trackGenres: seq<string>, playlistGenre: string)
    ensures ShouldTrack(trackGenres, playlistGenre) <==>
      exists i :: 0 <= i < |trackGenres| && LabelMatches(trackGenres[i], playlistGenre)
  {
    AnyBackIndex(trackGenres, g => LabelMatches(g, playlistGenre));
  }

  /** Some label equals `low` after lower-casing. */
  predicate AnyLowerEq(labels: seq<string>, low: string)
  {
    exists norm :: norm in labels && Lower(norm) == low
  }

  /** The inner loop of `should_track_be_in_playlist`, over the labels of one genre. */
  method MatchLabels(labels: seq<string>, low: string) returns (b: bool)
    ensures b == AnyLowerEq(labels, low)
  {
    var j := 0;
    while j < |labels|
      invariant 0 <= j <= |labels|
      invariant forall k :: 0 <= k < j ==> Lower(labels[k]) != low
    {
      if Lower(labels[j]) == low {
        return true;
      }
      j := j + 1;
    }
    return false;
  }

  /** One pass of the outer loop: normalize the genre and look for the playlist genre among its labels. */
  method GenreMatches(genre: string, playlistGenre: string, playlistGenreLower: string) returns (b: bool)
    requires playlistGenreLower == Lower(playlistGenre)
    ensures b == LabelMatches(genre, playlistGenre)
  {
    var normalized := NormalizeGenre(genre);
    b := MatchLabels(normalized, playlistGenreLower);
  }

  /** `should_track_be_in_playlist`: the loop over the track genres, with the early return. */
  method ShouldTrackBeInPlaylist(trackGenres: seq<string>, playlistGenre: string) returns (b: bool)
    ensures b == ShouldTrack(trackGenres, playlistGenre)
  {
    var playlistGenreLower := Lower(playlistGenre);
    var i := 0;
    while i < |trackGenres|
      invariant 0 <= i <= |trackGenres|
      invariant !ShouldTrack(trackGenres[..i], playlistGenre)
    {
      var m := GenreMatches(trackGenres[i], playlistGenre, playlistGenreLower);
      assert trackGenres[..i + 1][..i] == trackGenres[..i];
      if m {
        AnyBackPrefix(trackGenres, i + 1, g => LabelMatches(g, playlistGenre));
        return true;
      }
      i := i + 1;
    }
    assert trackGenres[..i] == trackGenres;
    return false;
  }

  /** The test ignores the case of the playlist genre. */
  lemma ShouldTrackIgnoresCase(trackGenres: seq<string>, playlistGenre: string)
    ensures ShouldTrack(trackGenres, playlistGenre) == ShouldTrack(trackGenres, Lower(playlistGenre))
  {
    LowerIdempotent(playlistGenre);
    AnyBackSame(trackGenres, g => LabelMatches(g, playlistGenre), g => LabelMatches(g, Lower(playlistGenre)));
  }

  /** A track matches a list of genres iff it matches one of its two halves. */
  lemma ShouldTrackAppend(a: seq<string>, b: seq<string>, playlistGenre: string)
    ensures ShouldTrack(a + b, playlistGenre) <==> ShouldTrack(a, playlistGenre) || ShouldTrack(b, playlistGenre)
  {
    AnyBackAppend(a, b, g => LabelMatches(g, playlistGenre));
  }

  /** A genre always matches its own label. */
  lemma OwnLabelMatches(genre: string)
    requires Normalized(genre) != []
    ensures LabelMatches(genre, Normalized(genre)[0])
  {
    assert Normalized(genre)[0] in Normalized(genre);
  }

  /** A genre without labels matches nothing. */
  lemma NoLabelNoMatch(genre: string, playlistGenre: string)
    requires Normalized(genre) == []
    ensures !ShouldTrack([genre], playlistGenre)
  {
    ShouldTrackSomeIndex([genre], playlistGenre);
    assert !LabelMatches([genre][0], playlistGenre);
  }

  /** A cached label that normalizes to nothing, such as "Metal", matches no playlist. */
  lemma MetalLabelMatchesNothing(playlistGenre: string)
    ensures !ShouldTrack(["Metal"], playlistGenre)
  {
    GenreExamples.Metal("Metal");
    NoLabelNoMatch("Metal", playlistGenre);
  }

  /** The raw tag "metal" does match the "Metal" playlist. */
  lemma RawMetalMatches()
    ensures ShouldTrack(["metal"], "Metal")
  {
    GenreExamples.LowerMetal("metal");
    OwnLabelMatches("metal");
    assert ["metal"][..0] == [];
  }
}
