/**
 * The Spotify URL parsers: `extract_playlist_id_from_url`
 * (model/Playlist_Tools.py) and `extract_artist_id_from_url`
 * (model/Artist_Genres.py and, identically, Artist_Checker.py). Each is a
 * `re.search` for a fixed marker followed by the group `([a-zA-Z0-9]+)`.
 */
module UrlIds {
  import opened Wrappers
  import opened Text

  /** A match of `marker([a-zA-Z0-9]+)` can start at `i`: the marker, then at least one alphanumeric. */
  predicate MatchAt(s: string, marker: string, i: int)
  {
    Occurs(s, marker, i) && i + |marker| < |s| && IsAlnum(s[i + |marker|])
  }

  /** The greedy `[a-zA-Z0-9]+`: the longest alphanumeric prefix. */
  function AlnumRun(s: string): (r: string)
    ensures |r| <= |s| && r == s[..|r|]
    ensures forall k :: 0 <= k < |r| ==> IsAlnum(r[k])
    ensures |r| < |s| ==> !IsAlnum(s[|r|])
  {
    if s == [] || !IsAlnum(s[0]) then [] else [s[0]] + AlnumRun(s[1..])
  }

  /** The leftmost start, at `i` or later, where a match can begin. */
  function FindMatch(s: string, marker: string, i: nat): (r: Option<nat>)
    ensures r.Some? ==> i <= r.value && MatchAt(s, marker, r.value)
    ensures r.Some? ==> forall k :: i <= k < r.value ==> !MatchAt(s, marker, k)
    ensures r.None? ==> forall k :: i <= k ==> !MatchAt(s, marker, k)
    decreases |s| - i
  {
    if i >= |s| then None
    else if MatchAt(s, marker, i) then Some(i)
    else FindMatch(s, marker, i + 1)
  }

  /** `re.search(marker + '([a-zA-Z0-9]+)', s).group(1)`, or `None` when nothing matches. */
  function SearchGroup(s: string, marker: string): (r: Option<string>)
    ensures r.None? <==> forall k :: 0 <= k ==> !MatchAt(s, marker, k)
  {
    match FindMatch(s, marker, 0)
      case Some(j) => Some(AlnumRun(s[j + |marker|..]))
      case None => None
  }

  /**
   * What a found group is: a non-empty maximal alphanumeric run that
   * directly follows the leftmost occurrence of the marker that is
   * followed by one.
   */
  lemma SearchGroupFound(s: string, marker: string)
    requires SearchGroup(s, marker).Some?
    ensures var id := SearchGroup(s, marker).value;
      exists j :: MatchAt(s, marker, j) && (forall k :: 0 <= k < j ==> !MatchAt(s, marker, k)) &&
        j + |marker| + |id| <= |s| && s[j + |marker|..j + |marker| + |id|] == id &&
        (j + |marker| + |id| == |s| || !IsAlnum(s[j + |marker| + |id|]))
    ensures SearchGroup(s, marker).value != []
    ensures forall k :: 0 <= k < |SearchGroup(s, marker).value| ==> IsAlnum(SearchGroup(s, marker).value[k])
  {
    var j := FindMatch(s, marker, 0).value;
    var id := AlnumRun(s[j + |marker|..]);
    assert s[j + |marker|..][..|id|] == s[j + |marker|..j + |marker| + |id|];
    assert id != [] by {
      assert s[j + |marker|..][0] == s[j + |marker|];
    }
    if j + |marker| + |id| < |s| {
      assert s[j + |marker|..][|id|] == s[j + |marker| + |id|];
    }
  }

  /** A marker at the very start, followed by an id and then nothing alphanumeric, yields that id. */
  lemma {:induction false} SearchGroupAtStart(marker: string, id: string, rest: string)
    requires id != [] && forall k :: 0 <= k < |id| ==> IsAlnum(id[k])
    requires rest == [] || !IsAlnum(rest[0])
    ensures SearchGroup(marker + id + rest, marker) == Some(id)
  {
    var s := marker + id + rest;
    assert s[..|marker|] == marker;
    assert s[|marker|] == id[0];
    assert MatchAt(s, marker, 0);
    AlnumRunOf(id, rest);
    assert s[|marker|..] == id + rest;
  }

  lemma {:induction false} AlnumRunOf(id: string, rest: string)
    requires forall k :: 0 <= k < |id| ==> IsAlnum(id[k])
    requires rest == [] || !IsAlnum(rest[0])
    ensures AlnumRun(id + rest) == id
    decreases |id|
  {
    if id == [] {
      assert id + rest == rest;
    } else {
      assert (id + rest)[1..] == id[1..] + rest;
      AlnumRunOf(id[1..], rest);
    }
  }

  /** The first index, at `i` or later, where `sub` occurs in `s`. */
  function FirstOccurrence(s: string, sub: string, i: nat): (r: Option<nat>)
    ensures r.Some? ==> i <= r.value && Occurs(s, sub, r.value)
    ensures r.Some? ==> forall k :: i <= k < r.value ==> !Occurs(s, sub, k)
    ensures r.None? ==> forall k :: i <= k ==> !Occurs(s, sub, k)
    decreases |s| - i
  {
    if i + |sub| > |s| then None
    else if Occurs(s, sub, i) then Some(i)
    else FirstOccurrence(s, sub, i + 1)
  }

  /** `s.split(sep)[0]`: everything before the first `sep`, or all of `s` when there is none. */
  function BeforeFirst(s: string, sep: string): (r: string)
    requires sep != []
    ensures |r| <= |s| && r == s[..|r|]
    ensures !Contains(r, sep)
    ensures r == s <==> !Contains(s, sep)
    ensures r != s ==> Occurs(s, sep, |r|)
  {
    match FirstOccurrence(s, sep, 0)
      case Some(j) =>
        assert Contains(s, sep);
        forall k | 0 <= k <= j - |sep| ensures !Occurs(s[..j], sep, k) {
          assert !Occurs(s, sep, k);
          assert s[..j][k..k + |sep|] == s[k..k + |sep|];
        }
        s[..j]
      case None => s
  }

  const PlaylistUrlError := "Invalid Spotify playlist URL format. Expected format: https://open.spotify.com/playlist/PLAYLIST_ID"
  const ArtistUrlError := "Could not extract artist ID from the provided URL"

  /** `extract_playlist_id_from_url`: the group after `playlist/`, else `ValueError`. */
  function ExtractPlaylistId(url: string): (r: Result<string>)
    ensures r.Err? <==> forall k :: 0 <= k ==> !MatchAt(url, "playlist/", k)
    ensures r.Err? ==> r.error == PlaylistUrlError
    ensures r.Ok? ==> r == Ok(SearchGroup(url, "playlist/").value)
  {
    match SearchGroup(url, "playlist/")
      case Some(id) => Ok(id)
      case None => Err(PlaylistUrlError)
  }

  /** `extract_artist_id_from_url`: cut at the first `?si=`, then the group after `/artist/`, else `ValueError`. */
  function ExtractArtistId(url: string): (r: Result<string>)
    ensures r.Err? <==> forall k :: 0 <= k ==> !MatchAt(BeforeFirst(url, "?si="), "/artist/", k)
    ensures r.Err? ==> r.error == ArtistUrlError
    ensures r.Ok? ==> r == Ok(SearchGroup(BeforeFirst(url, "?si="), "/artist/").value)
  {
    match SearchGroup(BeforeFirst(url, "?si="), "/artist/")
      case Some(id) => Ok(id)
      case None => Err(ArtistUrlError)
  }

  /** A playlist URL path and its share suffix give back the id. */
  lemma PlaylistIdRoundTrip(id: string, suffix: string)
    requires id != [] && forall k :: 0 <= k < |id| ==> IsAlnum(id[k])
    ensures ExtractPlaylistId("playlist/" + id + "?si=" + suffix) == Ok(id)
  {
    assert "playlist/" + id + "?si=" + suffix == "playlist/" + id + ("?si=" + suffix);
    SearchGroupAtStart("playlist/", id, "?si=" + suffix);
  }

  /** An artist URL path with a share suffix gives back the id: the suffix is cut first. */
  lemma ArtistIdRoundTrip(id: string, suffix: string)
    requires id != [] && forall k :: 0 <= k < |id| ==> IsAlnum(id[k])
    ensures ExtractArtistId("/artist/" + id + "?si=" + suffix) == Ok(id)
  {
    var url := "/artist/" + id + "?si=" + suffix;
    var path := "/artist/" + id;
    assert url == path + "?si=" + suffix;
    PathHasNoShareMarker(id);
    assert Occurs(url, "?si=", |path|) by {
      assert url[|path|..|path| + 4] == "?si=";
    }
    forall k | 0 <= k < |path| ensures !Occurs(url, "?si=", k) {
      assert url[k] == path[k] && path[k] in path;
    }
    assert FirstOccurrence(url, "?si=", 0) == Some(|path|) by {
      FirstOccurrenceIs(url, "?si=", 0, |path|);
    }
    assert BeforeFirst(url, "?si=") == path;
    assert path == "/artist/" + id + [];
    SearchGroupAtStart("/artist/", id, []);
  }

  lemma PathHasNoShareMarker(id: string)
    requires forall k :: 0 <= k < |id| ==> IsAlnum(id[k])
    ensures '?' !in "/artist/" + id
  {
    var path := "/artist/" + id;
    forall k | 0 <= k < |path| ensures path[k] != '?' {
      if k >= 8 {
        assert path[k] == id[k - 8];
      }
    }
  }

  lemma {:induction false} FirstOccurrenceIs(s: string, sub: string, i: nat, j: nat)
    requires i <= j && Occurs(s, sub, j)
    requires forall k :: i <= k < j ==> !Occurs(s, sub, k)
    ensures FirstOccurrence(s, sub, i) == Some(j)
    decreases j - i
  {
    if i < j {
      FirstOccurrenceIs(s, sub, i + 1, j);
    }
  }
}
