/**
 * The cache logic of Artist_Checker.py. `update_tracks_for_artist` writes an
 * artist's record with the given genres; `print_artist_genres` re-queries
 * the catalog for an artist that is uncached or has no cached genres, and
 * offers to type genres in when there are still none. The catalog's
 * answers and the prompts' answers are given in advance; a catalog answer
 * is `None` when the call raised. Every change to the cache is saved at
 * once, so the cache a call leaves is also the saved one.
 */
module ArtistChecker {
  import opened Wrappers
  import opened Text
  import opened Records
  import opened GenreInput
  import ArtistLookup

  /** `cache.get(artist_id, {}).get('country')`. */
  function CountryOf(cache: Cache, artistId: string): Option<string>
  {
    if artistId in cache then cache[artistId].Country() else None
  }

  /** The name `get_artist_name_from_cache` gives when the cache has none and the catalog failed. */
  function UnknownArtist(artistId: string): string
  {
    "Unknown Artist (" + artistId + ")"
  }

  /**
   * `update_tracks_for_artist`: the record becomes the looked-up name, the
   * given genres and the country the record had (`None` without one).
   */
  function UpdateTracksForArtist(artistId: string, genres: seq<string>, cache: Cache, fetched: Option<Artist>): (r: Cache)
    ensures artistId in r && r[artistId].genres == genres
    ensures r[artistId].country == FieldOf(CountryOf(cache, artistId))
    ensures artistId in cache && cache[artistId].HasName() ==> r[artistId].name == cache[artistId].name
    ensures !(artistId in cache && cache[artistId].HasName()) ==>
      r[artistId].name == Some(if fetched.Some? then fetched.value.name else UnknownArtist(artistId))
    ensures forall a :: a != artistId ==> (a in r <==> a in cache) && (a in cache ==> r[a] == cache[a])
  {
    var (name, c) := ArtistLookup.ArtistNameFromCache(artistId, cache, fetched);
    c[artistId := Record(Some(name), genres, FieldOf(CountryOf(c, artistId)))]
  }

  /** Writing the same genres again changes nothing once the record has a name. */
  lemma UpdateTracksIdempotent(artistId: string, genres: seq<string>, cache: Cache, fetched: Option<Artist>, again: Option<Artist>)
    requires fetched.Some? ==> fetched.value.name != ""
    ensures var c := UpdateTracksForArtist(artistId, genres, cache, fetched);
      UpdateTracksForArtist(artistId, genres, c, again) == c
  {
    var c := UpdateTracksForArtist(artistId, genres, cache, fetched);
    var c' := UpdateTracksForArtist(artistId, genres, c, again);
    assert c[artistId].HasName();
    assert c'[artistId] == c[artistId];
  }

  /** The catalog is queried again for an artist that is not cached or has no cached genres. */
  predicate NeedsQuery(cache: Cache, artistId: string)
  {
    artistId !in cache || cache[artistId].genres == []
  }

  /**
   * What happens outside the cache during one call: the catalog's answer to
   * the name lookup, to the re-query and to the name lookup of the manual
   * update, and the two prompts' answers.
   */
  datatype Answers = Answers(nameFetch: Option<Artist>, queryFetch: Option<Artist>, response: string,
                             genresInput: string, updateFetch: Option<Artist>)

  /** The cache a call leaves, and whether it ended in the exception the function catches. */
  datatype CheckRun = CheckRun(cache: Cache, failed: bool)

  /**
   * The cache after the name lookup and, when needed, the re-query: the
   * queried record keeps the country the cache had. `None` when the
   * re-query raised.
   */
  function Queried(artistId: string, cache: Cache, ans: Answers): (r: Option<Cache>)
    ensures r.Some? ==> artistId in r.value
    ensures r.Some? ==> forall a :: a != artistId ==> (a in r.value <==> a in cache) && (a in cache ==> r.value[a] == cache[a])
    ensures r.None? <==> NeedsQuery(ArtistLookup.ArtistNameFromCache(artistId, cache, ans.nameFetch).1, artistId) && ans.queryFetch.None?
  {
    var c := ArtistLookup.ArtistNameFromCache(artistId, cache, ans.nameFetch).1;
    if !NeedsQuery(c, artistId) then Some(c)
    else match ans.queryFetch
      case None => None
      case Some(a) => Some(c[artistId := Record(Some(a.name), a.genres, FieldOf(CountryOf(c, artistId)))])
  }

  /**
   * The end of `print_artist_genres` once the record is there: with no
   * genres and a `y` answer, the typed genres are written when `manual`
   * gives any.
   */
  function Offer(artistId: string, c: Cache, ans: Answers, manual: string -> seq<string>): CheckRun
    requires artistId in c
  {
    if c[artistId].genres != [] || Lower(ans.response) != "y" then CheckRun(c, false)
    else
      var genres := manual(ans.genresInput);
      if genres == [] then CheckRun(c, false)
      else CheckRun(UpdateTracksForArtist(artistId, genres, c, ans.updateFetch), false)
  }

  /** `print_artist_genres` with the typed answer split by `manual`. */
  function PrintArtistGenresWith(artistId: string, cache: Cache, ans: Answers, manual: string -> seq<string>): CheckRun
  {
    match Queried(artistId, cache, ans)
      case None => CheckRun(ArtistLookup.ArtistNameFromCache(artistId, cache, ans.nameFetch).1, true)
      case Some(c) => Offer(artistId, c, ans, manual)
  }

  /** `[genre.strip() for genre in genres_input.split(',')]`, as written: empty pieces are kept. */
  function ManualGenresAsWritten(s: string): (r: seq<string>)
    ensures |r| > 0
  {
    StripEach(SplitOn(s, ','))
  }

  /**
   * As written, the guard `if manual_genres:` always passes, so a blank
   * answer stores the genre list `[""]`.
   */
  lemma BlankAnswerStoresEmptyGenre(artistId: string, cache: Cache, ans: Answers, blank: string)
    requires artistId in cache && cache[artistId].HasName() && cache[artistId].genres == []
    requires ans.queryFetch.Some? && ans.queryFetch.value.genres == []
    requires ans.response == "y" && ans.genresInput == blank
    requires forall i :: 0 <= i < |blank| ==> IsSpace(blank[i])
    ensures var r := PrintArtistGenresWith(artistId, cache, ans, ManualGenresAsWritten);
      !r.failed && r.cache[artistId].genres == [""]
  {
    assert ',' !in blank by {
      forall i | 0 <= i < |blank| ensures blank[i] != ',' {
        assert IsSpace(blank[i]);
      }
    }
    SplitOnNone(blank, ',');
    StripBlank(blank);
    assert ManualGenresAsWritten(blank) == [""];
  }

  /** `print_artist_genres`, with the empty pieces of the typed answer dropped. */
  function PrintArtistGenres(artistId: string, cache: Cache, ans: Answers): (r: CheckRun)
    ensures r.failed <==> Queried(artistId, cache, ans).None?
    ensures !r.failed ==> artistId in r.cache
    ensures forall a :: a != artistId ==> (a in r.cache <==> a in cache) && (a in cache ==> r.cache[a] == cache[a])
  {
    PrintArtistGenresWith(artistId, cache, ans, SplitGenres)
  }

  /** An artist cached with a name and genres is shown from the cache, and nothing is written. */
  lemma CachedArtistUnchanged(artistId: string, cache: Cache, ans: Answers)
    requires artistId in cache && cache[artistId].HasName() && cache[artistId].genres != []
    ensures PrintArtistGenres(artistId, cache, ans) == CheckRun(cache, false)
  {
  }

  /** The record's country survives the call. */
  lemma CheckKeepsCountry(artistId: string, cache: Cache, ans: Answers)
    requires artistId in cache
    ensures var r := PrintArtistGenres(artistId, cache, ans);
      artistId in r.cache && r.cache[artistId].Country() == cache[artistId].Country()
  {
    if ans.nameFetch.Some? {
      ArtistLookup.ArtistNameKeepsRecord(artistId, cache, ans.nameFetch.value);
    }
  }

  /**
   * After a call that did not fail, the artist has genres, unless the answer
   * was not `y` or the typed answer held no genre; typed genres are never empty.
   */
  lemma CheckGenres(artistId: string, cache: Cache, ans: Answers)
    requires !PrintArtistGenres(artistId, cache, ans).failed
    ensures var r := PrintArtistGenres(artistId, cache, ans);
      var c := Queried(artistId, cache, ans).value;
      (r.cache[artistId].genres == [] <==>
        c[artistId].genres == [] && (Lower(ans.response) != "y" || SplitGenres(ans.genresInput) == [])) &&
      (r.cache[artistId].genres == c[artistId].genres || r.cache[artistId].genres == SplitGenres(ans.genresInput))
  {
  }

  /** With the empty pieces dropped, a blank typed answer writes nothing. */
  lemma BlankAnswerWritesNothing(artistId: string, cache: Cache, ans: Answers)
    requires forall i :: 0 <= i < |ans.genresInput| ==> IsSpace(ans.genresInput[i])
    requires Queried(artistId, cache, ans).Some?
    ensures PrintArtistGenres(artistId, cache, ans) == CheckRun(Queried(artistId, cache, ans).value, false)
  {
    SplitGenresBlank(ans.genresInput);
  }
}
