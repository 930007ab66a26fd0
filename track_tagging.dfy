/**
 * `get_track_genres` from Genre_Tools.py: the genres of a track are the
 * union of its artists' genres, with a regional tag added from the cached
 * countries of its artists.
 */
module TrackTagging {
  import opened Wrappers
  import opened Text
  import opened Lists
  import opened Records
  import opened GenreNormalize
  import opened ArtistBatch
  import GenreExamples

  /** How a cached country tags a track: Brazil first, then Japan, then the Nordic countries. */
  datatype Region = Brazilian | Japanese | Scandinavian | Elsewhere

  /** `country in ['Sweden', 'Norway', 'Iceland', 'Finland', 'Denmark']`. */
  predicate IsNordic(country: string)
  {
    country == "Sweden" || country == "Norway" || country == "Iceland" || country == "Finland" || country == "Denmark"
  }

  /** The `if 'Brazil' in country / elif 'Japan' in country / elif country in [...]` chain. */
  function RegionOf(country: string): (r: Region)
    ensures r == Brazilian <==> Contains(country, "Brazil")
    ensures r == Japanese <==> !Contains(country, "Brazil") && Contains(country, "Japan")
    ensures r == Scandinavian <==> !Contains(country, "Brazil") && !Contains(country, "Japan") && IsNordic(country)
  {
    if Contains(country, "Brazil") then Brazilian
    else if Contains(country, "Japan") then Japanese
    else if IsNordic(country) then Scandinavian
    else Elsewhere
  }

  /** The region of a credited artist, from a truthy cached country; `Elsewhere` otherwise. */
  function ArtistRegion(cache: Cache, artistId: string): Region
  {
    if artistId in cache && cache[artistId].Country().Some? && cache[artistId].Country().value != ""
    then RegionOf(cache[artistId].Country().value)
    else Elsewhere
  }

  /** Some credited artist has the region. */
  predicate HasRegion(artists: seq<string>, cache: Cache, region: Region)
  {
    AnyBack(artists, a => ArtistRegion(cache, a) == region)
  }

  /** `HasRegion` is the flag the loop raises: some credited artist has the region. */
  lemma HasRegionSomeArtist(artists: seq<string>, cache: Cache, region: Region)
    ensures HasRegion(artists, cache, region) <==> exists a :: a in artists && ArtistRegion(cache, a) == region
  {
    AnyBackIndex(artists, a => ArtistRegion(cache, a) == region);
    if exists a :: a in artists && ArtistRegion(cache, a) == region {
      var a :| a in artists && ArtistRegion(cache, a) == region;
      var i :| 0 <= i < |artists| && artists[i] == a;
    }
  }

  /** The genres one artist contributes: its batch genres, if the batch has it. */
  function GenresOf(batch: map<string, seq<string>>, artistId: string): set<string>
  {
    if artistId in batch then set g | g in batch[artistId] else {}
  }

  /** The union of the batch genres of the credited artists. */
  function ArtistsGenres(artists: seq<string>, batch: map<string, seq<string>>): set<string>
  {
    if artists == [] then {}
    else ArtistsGenres(artists[..|artists| - 1], batch) + GenresOf(batch, artists[|artists| - 1])
  }

  /** A genre is in the union exactly when some credited artist's batch genres hold it. */
  lemma {:induction false} ArtistsGenresUnion(artists: seq<string>, batch: map<string, seq<string>>)
    ensures forall g :: g in ArtistsGenres(artists, batch) <==> exists a :: a in artists && a in batch && g in batch[a]
  {
    if artists != [] {
      var front := artists[..|artists| - 1];
      var last := artists[|artists| - 1];
      ArtistsGenresUnion(front, batch);
      assert artists == front + [last];
      assert ArtistsGenres(artists, batch) == ArtistsGenres(front, batch) + GenresOf(batch, last);
      forall g ensures g in ArtistsGenres(artists, batch) <==> exists a :: a in artists && a in batch && g in batch[a] {
        if g in ArtistsGenres(artists, batch) && g !in GenresOf(batch, last) {
          var a :| a in front && a in batch && g in batch[a];
          assert a in artists;
        }
        if exists a :: a in artists && a in batch && g in batch[a] {
          var a :| a in artists && a in batch && g in batch[a];
          if a != last {
            assert a in front;
          }
        }
      }
    }
  }

  /** Adds `tag` when `flag` holds and no genre lower-cases to `key`. */
  function WithTag(genres: set<string>, flag: bool, tag: string, key: string): (r: set<string>)
    ensures genres <= r && r <= genres + {tag}
    ensures tag in r - genres <==> flag && tag !in genres && !(exists g :: g in genres && Lower(g) == key)
    ensures flag && Lower(tag) == key ==> exists g :: g in r && Lower(g) == key
  {
    if flag && !(exists g :: g in genres && Lower(g) == key) then genres + {tag} else genres
  }

  /** The union of the artists' batch genres. */
  function TrackUnion(track: Track, cache: Cache, fetch: seq<string> -> seq<Option<Artist>>): set<string>
  {
    ArtistsGenres(track.artists, BatchGenres(track.artists, cache, fetch))
  }

  /** The union and the Brazilian and Japanese tags: what `all_genres` holds before the Nordic branch. */
  function TaggedGenres(track: Track, cache: Cache, fetch: seq<string> -> seq<Option<Artist>>): set<string>
  {
    var withBrazil := WithTag(TrackUnion(track, cache, fetch), HasRegion(track.artists, cache, Brazilian), "Brazilian Music", "brazilian music");
    WithTag(withBrazil, HasRegion(track.artists, cache, Japanese), "Japanese Music", "japanese music")
  }

  /** Some label of the genre contains "metal", ignoring case. */
  predicate MentionsMetal(genre: string)
  {
    exists norm :: norm in Normalized(genre) && Contains(Lower(norm), "metal")
  }

  /** Some genre of the set mentions metal. */
  predicate AnyMetal(genres: set<string>)
  {
    exists g {:trigger MentionsMetal(g)} :: g in genres && MentionsMetal(g)
  }

  /**
   * `get_track_genres` as written: the Nordic branch calls `.lower()` on the
   * list `normalize_genre` returns, which raises as soon as there is a genre
   * to test.
   */
  function TrackGenresAsWritten(item: Item, cache: Cache, fetch: seq<string> -> seq<Option<Artist>>): (r: Result<set<string>>)
    ensures item.None? ==> r == Ok({})
    ensures item.Some? ==> (r.Err? <==> HasRegion(item.value.artists, cache, Scandinavian) && TaggedGenres(item.value, cache, fetch) != {})
    ensures r.Ok? ==> item.None? || r.value == TaggedGenres(item.value, cache, fetch)
  {
    match item
    case None => Ok({})
    case Some(track) =>
      var genres := TaggedGenres(track, cache, fetch);
      if HasRegion(track.artists, cache, Scandinavian) && genres != {} then Err("'list' object has no attribute 'lower'")
      else Ok(genres)
  }

  /**
   * `get_track_genres` as intended: the Nordic branch adds "Scandinavian Metal"
   * when some label of some genre contains "metal".
   */
  function TrackGenres(item: Item, cache: Cache, fetch: seq<string> -> seq<Option<Artist>>): (r: set<string>)
    ensures item.None? ==> r == {}
  {
    match item
    case None => {}
    case Some(track) =>
      var genres := TaggedGenres(track, cache, fetch);
      if HasRegion(track.artists, cache, Scandinavian) && AnyMetal(genres) then genres + {"Scandinavian Metal"} else genres
  }

  /** Brazil wins over Japan: a country naming both tags the artist Brazilian only. */
  lemma BrazilBeforeJapan(country: string)
    requires Contains(country, "Brazil") && Contains(country, "Japan")
    ensures RegionOf(country) == Brazilian
  {
  }

  /** The intended result keeps every genre of every artist and adds at most the three tags. */
  lemma TrackGenresBounds(track: Track, cache: Cache, fetch: seq<string> -> seq<Option<Artist>>)
    ensures TrackUnion(track, cache, fetch) <= TrackGenres(Some(track), cache, fetch)
    ensures TrackGenres(Some(track), cache, fetch) <=
      TrackUnion(track, cache, fetch) + {"Brazilian Music", "Japanese Music", "Scandinavian Metal"}
  {
  }

  /** Each tag is added only when some credited artist's cached country calls for it. */
  lemma TrackGenresTagsNeedRegion(track: Track, cache: Cache, fetch: seq<string> -> seq<Option<Artist>>)
    ensures "Brazilian Music" in TrackGenres(Some(track), cache, fetch) - TrackUnion(track, cache, fetch)
      ==> HasRegion(track.artists, cache, Brazilian)
    ensures "Japanese Music" in TrackGenres(Some(track), cache, fetch) - TrackUnion(track, cache, fetch)
      ==> HasRegion(track.artists, cache, Japanese)
    ensures "Scandinavian Metal" in TrackGenres(Some(track), cache, fetch) - TrackUnion(track, cache, fetch)
      ==> HasRegion(track.artists, cache, Scandinavian)
  {
    var union := TrackUnion(track, cache, fetch);
    var withBrazil := WithTag(union, HasRegion(track.artists, cache, Brazilian), "Brazilian Music", "brazilian music");
    var tagged := WithTag(withBrazil, HasRegion(track.artists, cache, Japanese), "Japanese Music", "japanese music");
    TrackGenresFromScan(track, cache, fetch, tagged);
    TagNeedsFlag(union, withBrazil, tagged, HasRegion(track.artists, cache, Brazilian), HasRegion(track.artists, cache, Japanese));
  }

  /** Which tag each tagging step may have added. */
  lemma TagNeedsFlag(union: set<string>, withBrazil: set<string>, tagged: set<string>, brazil: bool, japan: bool)
    requires withBrazil == WithTag(union, brazil, "Brazilian Music", "brazilian music")
    requires tagged == WithTag(withBrazil, japan, "Japanese Music", "japanese music")
    ensures tagged <= union + {"Brazilian Music", "Japanese Music"}
    ensures "Brazilian Music" in tagged - union ==> brazil
    ensures "Japanese Music" in tagged - union ==> japan
  {
    assert "Brazilian Music" != "Japanese Music";
  }

  /** A Brazilian artist always leaves a genre spelled "brazilian music" in some case. */
  lemma TrackGenresBrazilTag(track: Track, cache: Cache, fetch: seq<string> -> seq<Option<Artist>>)
    requires HasRegion(track.artists, cache, Brazilian)
    ensures exists g :: g in TrackGenres(Some(track), cache, fetch) && Lower(g) == "brazilian music"
  {
    assert Lower("Brazilian Music") == "brazilian music";
  }

  /** The intended Nordic branch adds its tag exactly when some label mentions metal. */
  lemma ScandinavianMetalTag(track: Track, cache: Cache, fetch: seq<string> -> seq<Option<Artist>>)
    requires "Scandinavian Metal" !in TaggedGenres(track, cache, fetch)
    ensures "Scandinavian Metal" in TrackGenres(Some(track), cache, fetch)
      <==> HasRegion(track.artists, cache, Scandinavian) && AnyMetal(TaggedGenres(track, cache, fetch))
  {
  }

  /** Without a Nordic artist the code as written and as intended agree. */
  lemma TrackGenresAgree(item: Item, cache: Cache, fetch: seq<string> -> seq<Option<Artist>>)
    requires item.Some? ==> !HasRegion(item.value.artists, cache, Scandinavian)
    ensures TrackGenresAsWritten(item, cache, fetch) == Ok(TrackGenres(item, cache, fetch))
  {
  }

  /**
   * A Nordic artist and a genre that mentions metal make the code as written
   * raise, where the intended code adds "Scandinavian Metal".
   */
  lemma NordicMetalRaises(track: Track, cache: Cache, fetch: seq<string> -> seq<Option<Artist>>, g: string)
    requires HasRegion(track.artists, cache, Scandinavian)
    requires g in TaggedGenres(track, cache, fetch) && MentionsMetal(g)
    ensures TrackGenresAsWritten(Some(track), cache, fetch).Err?
    ensures "Scandinavian Metal" in TrackGenres(Some(track), cache, fetch)
  {
    NordicMetalTagged(track, cache, fetch, g);
  }

  lemma NordicMetalTagged(track: Track, cache: Cache, fetch: seq<string> -> seq<Option<Artist>>, g: string)
    requires HasRegion(track.artists, cache, Scandinavian)
    requires g in TaggedGenres(track, cache, fetch) && MentionsMetal(g)
    ensures "Scandinavian Metal" in TrackGenres(Some(track), cache, fetch)
  {
    assert AnyMetal(TaggedGenres(track, cache, fetch));
  }

  /**
   * A concrete input for the previous lemma: one artist, cached with the
   * genre "metal" and the country "Sweden".
   */
  lemma ScandinavianBranchRaises(fetch: seq<string> -> seq<Option<Artist>>)
    ensures var cache := map["a" := Record(Some("Band"), ["metal"], Present("Sweden"))];
      var item := Some(Track("t", ["a"]));
      && TrackGenresAsWritten(item, cache, fetch).Err?
      && "Scandinavian Metal" in TrackGenres(item, cache, fetch)
  {
    var cache := map["a" := Record(Some("Band"), ["metal"], Present("Sweden"))];
    var track := Track("t", ["a"]);
    SwedenIsNordic();
    assert ArtistRegion(cache, "a") == Scandinavian;
    assert track.artists[..0] == [];
    assert HasRegion(track.artists, cache, Scandinavian);
    BatchGenresCachedValue(track.artists, cache, fetch, "a");
    assert "metal" in GenresOf(BatchGenres(track.artists, cache, fetch), "a");
    assert "metal" in TrackUnion(track, cache, fetch);
    RawMetalMentionsMetal();
    NordicMetalRaises(track, cache, fetch, "metal");
  }

  /** "Sweden" names neither Brazil nor Japan and is in the Nordic list. */
  lemma SwedenIsNordic()
    ensures RegionOf("Sweden") == Scandinavian
  {
    MissingChar("Sweden", "Brazil", 'B');
    MissingChar("Sweden", "Japan", 'J');
  }

  /** A cached country "Brazil" tags the track even when its artist has no genres. */
  lemma BrazilianArtistTagged(fetch: seq<string> -> seq<Option<Artist>>)
    ensures var cache := map["a" := Record(None, [], Present("Brazil"))];
      TrackGenres(Some(Track("t", ["a"])), cache, fetch) == {"Brazilian Music"}
  {
    var cache := map["a" := Record(None, [], Present("Brazil"))];
    var track := Track("t", ["a"]);
    BrazilCachedRegions(cache);
    BatchGenresCachedValue(track.artists, cache, fetch, "a");
    assert TrackUnion(track, cache, fetch) == {};
    var withBrazil := WithTag({}, true, "Brazilian Music", "brazilian music");
    assert withBrazil == {"Brazilian Music"};
    TrackGenresFromScan(track, cache, fetch, withBrazil);
  }

  /** The only credited artist is cached in Brazil: the Brazilian flag alone is raised. */
  lemma BrazilCachedRegions(cache: Cache)
    requires cache == map["a" := Record(None, [], Present("Brazil"))]
    ensures HasRegion(["a"], cache, Brazilian)
    ensures !HasRegion(["a"], cache, Japanese) && !HasRegion(["a"], cache, Scandinavian)
  {
    ContainsAt("Brazil", "Brazil", 0);
    assert ArtistRegion(cache, "a") == Brazilian;
    assert ["a"][..0] == [];
  }

  /**
   * The loop of `get_track_genres` over the credited artists: the union of
   * their batch genres and the three region flags.
   */
  method ScanArtists(artists: seq<string>, artistGenres: map<string, seq<string>>, cache: Cache)
    returns (allGenres: set<string>, isBrazilian: bool, isJapanese: bool, isScandinavian: bool)
    ensures allGenres == ArtistsGenres(artists, artistGenres)
    ensures isBrazilian == HasRegion(artists, cache, Brazilian)
    ensures isJapanese == HasRegion(artists, cache, Japanese)
    ensures isScandinavian == HasRegion(artists, cache, Scandinavian)
  {
    allGenres := {};
    isBrazilian, isJapanese, isScandinavian := false, false, false;
    var i := 0;
    while i < |artists|
      invariant 0 <= i <= |artists|
      invariant allGenres == ArtistsGenres(artists[..i], artistGenres)
      invariant isBrazilian == HasRegion(artists[..i], cache, Brazilian)
      invariant isJapanese == HasRegion(artists[..i], cache, Japanese)
      invariant isScandinavian == HasRegion(artists[..i], cache, Scandinavian)
    {
      UnionStep(artists, i, artistGenres);
      HasRegionStep(artists, i, cache, Brazilian);
      HasRegionStep(artists, i, cache, Japanese);
      HasRegionStep(artists, i, cache, Scandinavian);
      var genres := GenresOfArtist(artists[i], artistGenres);
      allGenres := allGenres + genres;
      var region := RegionOfArtist(artists[i], cache);
      isBrazilian := isBrazilian || region == Brazilian;
      isJapanese := isJapanese || region == Japanese;
      isScandinavian := isScandinavian || region == Scandinavian;
      i := i + 1;
    }
    assert artists[..|artists|] == artists;
  }

  /** One more artist: its batch genres join the union. */
  lemma UnionStep(artists: seq<string>, i: nat, artistGenres: map<string, seq<string>>)
    requires i < |artists|
    ensures ArtistsGenres(artists[..i + 1], artistGenres) == ArtistsGenres(artists[..i], artistGenres) + GenresOf(artistGenres, artists[i])
  {
    assert artists[..i + 1][..i] == artists[..i];
  }

  /** One more artist: its region joins the flags. */
  lemma HasRegionStep(artists: seq<string>, i: nat, cache: Cache, region: Region)
    requires i < |artists|
    ensures HasRegion(artists[..i + 1], cache, region) == (HasRegion(artists[..i], cache, region) || ArtistRegion(cache, artists[i]) == region)
  {
    assert artists[..i + 1][..i] == artists[..i];
  }

  /** `if artist_id in artist_genres: all_genres.update(artist_genres[artist_id])`. */
  method GenresOfArtist(artistId: string, artistGenres: map<string, seq<string>>) returns (r: set<string>)
    ensures r == GenresOf(artistGenres, artistId)
  {
    r := {};
    if artistId in artistGenres {
      r := set g | g in artistGenres[artistId];
    }
  }

  /** The country test of the loop: which flag, if any, one artist sets. */
  method RegionOfArtist(artistId: string, cache: Cache) returns (region: Region)
    ensures region == ArtistRegion(cache, artistId)
  {
    region := Elsewhere;
    if artistId in cache {
      var country := cache[artistId].Country();
      if country.Some? && country.value != "" {
        if Contains(country.value, "Brazil") {
          region := Brazilian;
        } else if Contains(country.value, "Japan") {
          region := Japanese;
        } else if IsNordic(country.value) {
          region := Scandinavian;
        }
      }
    }
  }

  /** The Brazilian and Japanese tagging steps of `get_track_genres`. */
  method AddRegionalTags(union: set<string>, isBrazilian: bool, isJapanese: bool) returns (allGenres: set<string>)
    ensures allGenres == WithTag(WithTag(union, isBrazilian, "Brazilian Music", "brazilian music"), isJapanese, "Japanese Music", "japanese music")
  {
    allGenres := union;
    if isBrazilian && !(exists g :: g in allGenres && Lower(g) == "brazilian music") {
      allGenres := allGenres + {"Brazilian Music"};
    }
    if isJapanese && !(exists g :: g in allGenres && Lower(g) == "japanese music") {
      allGenres := allGenres + {"Japanese Music"};
    }
  }

  /** `get_track_genres`: the batch lookup, the artist loop, then the tagging steps; the Nordic branch as intended. */
  method GetTrackGenres(item: Item, cache: Cache, fetch: seq<string> -> seq<Option<Artist>>) returns (r: set<string>)
    ensures r == TrackGenres(item, cache, fetch)
  {
    if item.None? {
      return {};
    }
    var track := item.value;
    var artistGenres := GetArtistGenresBatch(track.artists, cache, fetch);
    var union, isBrazilian, isJapanese, isScandinavian := ScanArtists(track.artists, artistGenres, cache);
    var allGenres := AddRegionalTags(union, isBrazilian, isJapanese);
    TrackGenresFromScan(track, cache, fetch, allGenres);
    if isScandinavian {
      var isMetal := AnyMetalLoop(allGenres);
      if isMetal {
        allGenres := allGenres + {"Scandinavian Metal"};
      }
    }
    r := allGenres;
  }

  /** The tagged genres, then the Nordic test on them. */
  lemma TrackGenresFromScan(track: Track, cache: Cache, fetch: seq<string> -> seq<Option<Artist>>, tagged: set<string>)
    requires tagged == WithTag(WithTag(TrackUnion(track, cache, fetch), HasRegion(track.artists, cache, Brazilian), "Brazilian Music", "brazilian music"),
                               HasRegion(track.artists, cache, Japanese), "Japanese Music", "japanese music")
    ensures TrackGenres(Some(track), cache, fetch) ==
      if HasRegion(track.artists, cache, Scandinavian) && AnyMetal(tagged) then tagged + {"Scandinavian Metal"} else tagged
  {
  }

  /** Adding one genre to a set adds exactly that genre's answer to the test. */
  lemma AnyMetalAdd(genres: set<string>, g: string)
    ensures AnyMetal(genres + {g}) <==> AnyMetal(genres) || MentionsMetal(g)
  {
    if AnyMetal(genres + {g}) {
      var h :| h in genres + {g} && MentionsMetal(h);
      if h != g {
        assert h in genres;
      }
    }
  }

  /** The labels of one genre, searched for "metal". */
  method LabelsMentionMetal(labels: seq<string>) returns (b: bool)
    ensures b <==> exists norm :: norm in labels && Contains(Lower(norm), "metal")
  {
    var j := 0;
    while j < |labels|
      invariant 0 <= j <= |labels|
      invariant forall k :: 0 <= k < j ==> !Contains(Lower(labels[k]), "metal")
    {
      if Contains(Lower(labels[j]), "metal") {
        return true;
      }
      j := j + 1;
    }
    return false;
  }

  /** Normalize one genre and search its labels for "metal". */
  method GenreMentionsMetal(genre: string) returns (b: bool)
    ensures b == MentionsMetal(genre)
  {
    var norms := NormalizeGenre(genre);
    b := LabelsMentionMetal(norms);
  }

  /** The intended `any(...)` over the set of genres, one genre at a time. */
  method AnyMetalLoop(genres: set<string>) returns (b: bool)
    ensures b == AnyMetal(genres)
  {
    var rest := genres;
    while rest != {}
      invariant rest <= genres
      invariant !AnyMetal(genres - rest)
      decreases |rest|
    {
      var g :| g in rest;
      var m := GenreMentionsMetal(g);
      AnyMetalAdd(genres - rest, g);
      assert (genres - rest) + {g} == genres - (rest - {g});
      if m {
        AnyMetalUp(genres - (rest - {g}), genres);
        return true;
      }
      rest := rest - {g};
    }
    assert genres - rest == genres;
    return false;
  }

  /** The test is monotone in the set. */
  lemma AnyMetalUp(smaller: set<string>, larger: set<string>)
    requires smaller <= larger && AnyMetal(smaller)
    ensures AnyMetal(larger)
  {
    var h :| h in smaller && MentionsMetal(h);
    assert h in larger;
  }

  /** The raw tag "metal" mentions metal once normalized. */
  lemma RawMetalMentionsMetal()
    ensures MentionsMetal("metal")
  {
    GenreExamples.LowerMetal("metal");
    MetalWordLower();
    LabelMentionsMetal("metal", "Metal");
  }

  lemma MetalWordLower()
    ensures Lower("Metal") == "metal"
  {
  }

  /** A label containing "metal" in any case makes its genre mention metal. */
  lemma LabelMentionsMetal(genre: string, norm: string)
    requires Normalized(genre) == [norm] && Lower(norm) == "metal"
    ensures MentionsMetal(genre)
  {
    ContainsAt("metal", "metal", 0);
    assert norm in Normalized(genre);
  }
}
