/**
 * `get_artist_name_from_cache` and `get_artist_genres` from Genre_Tools.py:
 * lookups that answer from the artist cache and fill it on a miss.
 * `fetched` is what `get_artist_with_retry` gave, `None` when it failed or
 * gave nothing; `country` is what the encyclopedia lookup gave.
 */
module ArtistLookup {
  import opened Wrappers
  import opened Text
  import opened Lists
  import opened Records
  import opened GenreDedup
  import ArtistGenreMappings

  /** `get_artist_name_from_cache`: the name, and the cache as the call leaves it. */
  function ArtistNameFromCache(artistId: string, cache: Cache, fetched: Option<Artist>): (r: (string, Cache))
    ensures artistId in cache && cache[artistId].HasName() ==> r == (cache[artistId].name.value, cache)
    ensures fetched.None? ==> r.1 == cache
    ensures forall a :: a != artistId ==> (a in r.1 <==> a in cache) && (a in cache ==> r.1[a] == cache[a])
    ensures !(artistId in cache && cache[artistId].HasName()) && fetched.Some? ==>
      r.0 == fetched.value.name && artistId in r.1 && r.1[artistId].name == Some(fetched.value.name)
  {
    if artistId in cache && cache[artistId].HasName() then (cache[artistId].name.value, cache)
    else match fetched
      case None => ("Unknown Artist (" + artistId + ")", cache)
      case Some(artist) =>
        if artistId in cache then (artist.name, cache[artistId := cache[artistId].(name := Some(artist.name))])
        else (artist.name, cache[artistId := Record(Some(artist.name), artist.genres, Null)])
  }

  /** Once a non-empty name is looked up, the next lookup answers from the cache with it. */
  lemma ArtistNameCached(artistId: string, cache: Cache, artist: Artist, again: Option<Artist>)
    requires artist.name != ""
    ensures var (name, cache') := ArtistNameFromCache(artistId, cache, Some(artist));
      ArtistNameFromCache(artistId, cache', again) == (name, cache')
  {
  }

  /** A miss leaves a cache record's genres and country as they were. */
  lemma ArtistNameKeepsRecord(artistId: string, cache: Cache, artist: Artist)
    requires artistId in cache
    ensures var r := ArtistNameFromCache(artistId, cache, Some(artist)).1;
      r[artistId].genres == cache[artistId].genres && r[artistId].country == cache[artistId].country
  {
  }

  /**
   * The national tag `get_artist_genres` appends, as written: the tests
   * `'brazil' in country` and `'japan' in country` are case-sensitive and
   * lower-case, so the capitalised country names the encyclopedia returns
   * never match.
   */
  function NationalTagAsWritten(country: string, genres: seq<string>): (r: seq<string>)
    ensures r == genres || r == genres + ["Brazilian Music"] || r == genres + ["Japanese Music"]
  {
    NationalTagIn(country, genres)
  }

  /** The national tag as intended: the country is compared without regard to case. */
  function NationalTag(country: string, genres: seq<string>): (r: seq<string>)
    ensures r == genres || r == genres + ["Brazilian Music"] || r == genres + ["Japanese Music"]
  {
    NationalTagIn(Lower(country), genres)
  }

  /** The two-armed tag test, on whatever text the country is searched in. */
  function NationalTagIn(searched: string, genres: seq<string>): (r: seq<string>)
    ensures r == genres + ["Brazilian Music"] <==> Contains(searched, "brazil") && "brazilian music" !in LowerAll(genres)
    ensures r == genres + ["Japanese Music"] <==>
      !(Contains(searched, "brazil") && "brazilian music" !in LowerAll(genres))
      && Contains(searched, "japan") && "japanese music" !in LowerAll(genres)
  {
    assert genres + ["Brazilian Music"] != genres + ["Japanese Music"] by {
      assert (genres + ["Brazilian Music"])[|genres|] != (genres + ["Japanese Music"])[|genres|];
    }
    assert |genres + ["Brazilian Music"]| != |genres|;
    if Contains(searched, "brazil") && "brazilian music" !in LowerAll(genres) then genres + ["Brazilian Music"]
    else if Contains(searched, "japan") && "japanese music" !in LowerAll(genres) then genres + ["Japanese Music"]
    else genres
  }

  /** `[g.lower() for g in genres]`. */
  function LowerAll(genres: seq<string>): (r: seq<string>)
    ensures |r| == |genres| && forall i :: 0 <= i < |genres| ==> r[i] == Lower(genres[i])
  {
    seq(|genres|, i requires 0 <= i < |genres| => Lower(genres[i]))
  }

  /** The country "Brazil" gets no tag as written and the Brazilian tag as intended. */
  lemma CapitalisedCountryMissed()
    ensures NationalTagAsWritten("Brazil", []) == []
    ensures NationalTag("Brazil", []) == ["Brazilian Music"]
  {
    MissingChar("Brazil", "brazil", 'b');
    MissingChar("Brazil", "japan", 'j');
    assert Lower("Brazil") == "brazil";
    ContainsAt("brazil", "brazil", 0);
  }

  /** The intended test does not depend on how the country is capitalised. */
  lemma NationalTagIgnoresCase(country: string, genres: seq<string>)
    ensures NationalTag(country, genres) == NationalTag(Lower(country), genres)
  {
    LowerIdempotent(country);
  }

  /**
   * `get_artist_genres(artist_id, cache)` on a given cache: a cached id
   * answers from the cache and changes nothing; otherwise the catalog's
   * genres plus the custom ones, a national tag from the encyclopedia's
   * country, hyphen de-duplication, and a new record.  A failed lookup
   * raises, which is the error here.
   */
  function ArtistGenres(artistId: string, cache: Cache, fetched: Option<Artist>,
                        mappings: ArtistGenreMappings.MappingTable, country: Option<string>): (r: Result<(seq<string>, Cache)>)
    ensures artistId in cache ==> r == Ok((cache[artistId].genres, cache))
    ensures artistId !in cache ==> (r.Ok? <==> fetched.Some?)
    ensures r.Ok? ==> artistId in r.value.1 && r.value.1[artistId].genres == r.value.0
    ensures r.Ok? ==> forall a :: a != artistId ==> (a in r.value.1 <==> a in cache) && (a in cache ==> r.value.1[a] == cache[a])
    ensures r.Ok? && artistId !in cache ==> Distinct(Keys(r.value.0, HyphenKey))
  {
    if artistId in cache then Ok((cache[artistId].genres, cache))
    else match fetched
      case None => Err("artist lookup failed")
      case Some(artist) =>
        var genres := artist.genres + ArtistGenreMappings.CustomArtistGenres(mappings, artistId);
        var tagged := if country.Some? && country.value != "" then NationalTag(country.value, genres) else genres;
        var deduped := HyphenDedup(tagged);
        var recorded := if country.Some? then Present(country.value) else Null;
        Ok((deduped, cache[artistId := Record(Some(artist.name), deduped, recorded)]))
  }

  /** After a successful miss the next call answers from the cache with the same genres. */
  lemma ArtistGenresCached(artistId: string, cache: Cache, fetched: Option<Artist>,
                           mappings: ArtistGenreMappings.MappingTable, country: Option<string>,
                           fetched': Option<Artist>, country': Option<string>)
    requires ArtistGenres(artistId, cache, fetched, mappings, country).Ok?
    ensures var (genres, cache') := ArtistGenres(artistId, cache, fetched, mappings, country).value;
      ArtistGenres(artistId, cache', fetched', mappings, country') == Ok((genres, cache'))
  {
  }

  /** On a miss every catalog and custom genre is kept up to its hyphen key. */
  lemma ArtistGenresKeepsKeys(artistId: string, cache: Cache, artist: Artist,
                              mappings: ArtistGenreMappings.MappingTable, country: Option<string>, g: string)
    requires artistId !in cache
    requires g in artist.genres + ArtistGenreMappings.CustomArtistGenres(mappings, artistId)
    ensures HyphenKey(g) in Keys(ArtistGenres(artistId, cache, Some(artist), mappings, country).value.0, HyphenKey)
  {
    var genres := artist.genres + ArtistGenreMappings.CustomArtistGenres(mappings, artistId);
    var tagged := if country.Some? && country.value != "" then NationalTag(country.value, genres) else genres;
    var i :| 0 <= i < |genres| && genres[i] == g;
    assert tagged[i] == g;
  }
}
