/**
 * The custom-genre manager scripts Add_Custom_Genres.py and
 * controller/Add_Custom_Genres.py: they add an artist's entry
 * `{name, genres}` to the custom-genres file and remove one. The root
 * script stores each typed genre in its hyphen-free key form; the
 * controller script stores the labels `normalize_genre` gives. Both
 * de-duplicate in order. The prompts' answers and the catalog's answers
 * are parameters; an answer of `None` for the catalog is a call that raised.
 */
module CustomGenreManager {
  import opened Wrappers
  import opened Text
  import opened Lists
  import opened Records
  import opened GenreDedup
  import opened GenreNormalize
  import opened GenrePipeline
  import opened GenreInput

  /** `normalize_genre_for_storage` as a one-label normalizer. */
  function StorageLabel(genre: string): seq<string>
  {
    [HyphenKey(genre)]
  }

  /**
   * The genres the root script stores:
   * `list(dict.fromkeys(normalize_genre_for_storage(g) for g in genres))`.
   */
  function StorageGenres(genres: seq<string>): seq<string>
  {
    Dedup(FlatMap(genres, StorageLabel))
  }

  /**
   * The stored genres are distinct, each is its own storage form, and they
   * are exactly the storage forms of the typed genres.
   */
  lemma StorageGenresMeaning(genres: seq<string>, x: string)
    ensures Distinct(StorageGenres(genres))
    ensures forall k :: 0 <= k < |StorageGenres(genres)| ==> HyphenKey(StorageGenres(genres)[k]) == StorageGenres(genres)[k]
    ensures x in StorageGenres(genres) <==> exists i :: 0 <= i < |genres| && x == HyphenKey(genres[i])
  {
    var r := StorageGenres(genres);
    forall k | 0 <= k < |r| ensures HyphenKey(r[k]) == r[k] {
      FlatMapMember(genres, StorageLabel, r[k]);
      var i :| 0 <= i < |genres| && r[k] in StorageLabel(genres[i]);
      HyphenKeyCanonical(genres[i]);
    }
    FlatMapMember(genres, StorageLabel, x);
  }

  /** Genres that are their own storage form map to themselves. */
  lemma {:induction false} FlatMapOfKeys(genres: seq<string>)
    requires forall k :: 0 <= k < |genres| ==> HyphenKey(genres[k]) == genres[k]
    ensures FlatMap(genres, StorageLabel) == genres
  {
    if genres != [] {
      var front := genres[..|genres| - 1];
      assert forall k :: 0 <= k < |front| ==> front[k] == genres[k];
      FlatMapOfKeys(front);
      assert genres == front + [genres[|genres| - 1]];
    }
  }

  /** Storing the stored genres again changes nothing. */
  lemma StorageGenresIdempotent(genres: seq<string>)
    ensures StorageGenres(StorageGenres(genres)) == StorageGenres(genres)
  {
    var r := StorageGenres(genres);
    StorageGenresMeaning(genres, "");
    FlatMapOfKeys(r);
    DedupOfDistinct(r);
  }

  /** The entry `{name, genres}` both scripts write. */
  function Entry(artistName: string, genres: seq<string>): CustomEntry
  {
    CDict(Some(artistName), Some(genres), None)
  }

  /** `add_artist_custom_genres` of the root script. */
  function AddArtistCustomGenres(custom: CustomGenres, artistId: string, artistName: string, genres: seq<string>): (r: CustomGenres)
    ensures r.Keys == custom.Keys + {artistId}
    ensures r[artistId].CDict? && r[artistId].name == Some(artistName) && r[artistId].genres.Some?
    ensures forall x :: x in r[artistId].genres.value <==> exists i :: 0 <= i < |genres| && x == HyphenKey(genres[i])
    ensures forall a :: a in custom && a != artistId ==> r[a] == custom[a]
  {
    forall x ensures x in StorageGenres(genres) <==> exists i :: 0 <= i < |genres| && x == HyphenKey(genres[i]) {
      StorageGenresMeaning(genres, x);
    }
    custom[artistId := Entry(artistName, StorageGenres(genres))]
  }

  /** Adding an artist's stored genres again leaves the file as it is. */
  lemma AddStoredAgain(custom: CustomGenres, artistId: string, artistName: string, genres: seq<string>)
    ensures var c := AddArtistCustomGenres(custom, artistId, artistName, genres);
      AddArtistCustomGenres(c, artistId, artistName, c[artistId].genres.value) == c
  {
    StorageGenresIdempotent(genres);
  }

  /** The genres the controller script stores: the labels of every typed genre, de-duplicated in order. */
  function LabelGenres(genres: seq<string>): seq<string>
  {
    Dedup(FlatMap(genres, Normalized))
  }

  /** The stored labels are distinct, and are exactly the labels of the typed genres. */
  lemma LabelGenresMeaning(genres: seq<string>, x: string)
    ensures Distinct(LabelGenres(genres))
    ensures x in LabelGenres(genres) <==> exists i :: 0 <= i < |genres| && x in Normalized(genres[i])
  {
    FlatMapMember(genres, Normalized, x);
  }

  /** `add_artist_custom_genres` of the controller script: the normalizing loop, then the write. */
  method AddArtistLabels(custom: CustomGenres, artistId: string, artistName: string, genres: seq<string>)
    returns (r: CustomGenres)
    ensures r == custom[artistId := Entry(artistName, LabelGenres(genres))]
  {
    var normalizedGenres := FlattenNormalized(genres);
    normalizedGenres := Dedup(normalizedGenres);
    r := custom[artistId := Entry(artistName, normalizedGenres)];
  }

  /**
   * `remove_artist_custom_genres`: the new file, and whether it was saved.
   * The entry's name is read with `.get('name', 'Unknown')` before the
   * delete, so an entry that is not an object (a bare list, a string, a
   * number) raises AttributeError and the file is neither changed nor saved.
   */
  function RemoveArtistCustomGenres(custom: CustomGenres, artistId: string): (r: Result<(CustomGenres, bool)>)
    ensures r.Err? <==> artistId in custom && !custom[artistId].CDict?
    ensures r.Ok? ==> (r.value.1 <==> artistId in custom)
    ensures r.Ok? ==> r.value.0 == custom - {artistId}
    ensures r.Ok? && !r.value.1 ==> r.value.0 == custom
  {
    if artistId !in custom then Ok((custom, false))
    else if !custom[artistId].CDict? then Err("AttributeError: object has no attribute 'get'")
    else Ok((custom - {artistId}, true))
  }

  /** Removing what was just added gives back the file without that artist. */
  lemma AddThenRemove(custom: CustomGenres, artistId: string, artistName: string, genres: seq<string>)
    ensures RemoveArtistCustomGenres(AddArtistCustomGenres(custom, artistId, artistName, genres), artistId) ==
      Ok((custom - {artistId}, true))
  {
    var c := AddArtistCustomGenres(custom, artistId, artistName, genres);
    assert c[artistId].CDict?;
    assert (c - {artistId}).Keys == (custom - {artistId}).Keys;
    assert forall a :: a in c - {artistId} ==> (c - {artistId})[a] == (custom - {artistId})[a];
    assert c - {artistId} == custom - {artistId};
  }

  /** The two additions the scripts make. */
  datatype Adder = StoreKeys | StoreLabels

  function Add(adder: Adder, custom: CustomGenres, artistId: string, artistName: string, genres: seq<string>): CustomGenres
  {
    match adder
      case StoreKeys => AddArtistCustomGenres(custom, artistId, artistName, genres)
      case StoreLabels => custom[artistId := Entry(artistName, LabelGenres(genres))]
  }

  /**
   * Reading typed genres: `input().strip()`, nothing when that is empty,
   * then the non-empty stripped comma-separated pieces.
   */
  function TypedGenres(genresInput: string): (r: Option<seq<string>>)
    ensures r.None? <==> Strip(genresInput) == ""
  {
    var s := Strip(genresInput);
    if s == "" then None else Some(SplitGenres(s))
  }

  /**
   * `get_artist_by_id` of the controller script: the cached name and genres
   * when the cache has a truthy name, else the catalog's artist, `None`
   * (`{}`) when that call raised.
   */
  function CachedOrFetched(artistId: string, cache: Cache, fetched: Option<Artist>): (r: Option<Artist>)
    ensures artistId in cache && cache[artistId].HasName() ==>
      r == Some(Artist(artistId, cache[artistId].name.value, cache[artistId].genres, None))
    ensures !(artistId in cache && cache[artistId].HasName()) ==> r == fetched
  {
    if artistId in cache && cache[artistId].HasName() then
      Some(Artist(artistId, cache[artistId].name.value, cache[artistId].genres, None))
    else fetched
  }

  /**
   * `add_by_artist_id`: the file after the call, `None` when nothing was
   * written (no id, no artist, no genres typed).
   */
  function AddByArtistId(adder: Adder, custom: CustomGenres, idInput: string, artist: string -> Option<Artist>,
                         genresInput: string): (r: Option<CustomGenres>)
    ensures r.Some? <==> Strip(idInput) != "" && artist(Strip(idInput)).Some? && Strip(genresInput) != ""
    ensures r.Some? ==> r.value == Add(adder, custom, Strip(idInput), artist(Strip(idInput)).value.name,
                                       SplitGenres(Strip(genresInput)))
  {
    var artistId := Strip(idInput);
    if artistId == "" then None
    else match artist(artistId)
      case None => None
      case Some(a) =>
        match TypedGenres(genresInput)
          case None => None
          case Some(genres) => Some(Add(adder, custom, artistId, a.name, genres))
  }

  /**
   * `search_and_add_artist`: `choice` is the typed selection, `None` when it
   * is not an integer; the selection is 1-based. `None` when nothing was written.
   */
  function SearchAndAdd(adder: Adder, custom: CustomGenres, nameInput: string, results: seq<Artist>,
                        choice: Option<int>, genresInput: string): (r: Option<CustomGenres>)
    ensures r.Some? <==> (Strip(nameInput) != "" && choice.Some? && 1 <= choice.value <= |results| &&
                          Strip(genresInput) != "")
    ensures r.Some? ==> var a := results[choice.value - 1];
      r.value == Add(adder, custom, a.id, a.name, SplitGenres(Strip(genresInput)))
  {
    if Strip(nameInput) == "" || results == [] then None
    else match choice
      case None => None
      case Some(n) =>
        if n - 1 < 0 || n - 1 >= |results| then None
        else
          var a := results[n - 1];
          match TypedGenres(genresInput)
            case None => None
            case Some(genres) => Some(Add(adder, custom, a.id, a.name, genres))
  }

  /** Whatever the scripts write, every other artist's entry is kept. */
  lemma AddKeepsOthers(adder: Adder, custom: CustomGenres, artistId: string, artistName: string, genres: seq<string>, other: string)
    requires other in custom && other != artistId
    ensures var r := Add(adder, custom, artistId, artistName, genres);
      other in r && r[other] == custom[other]
  {
  }

  /** Storage forms hold no hyphen, no upper-case letter and no stray white space. */
  lemma StoredGenresClean(genres: seq<string>, k: nat)
    requires k < |StorageGenres(genres)|
    ensures var g := StorageGenres(genres)[k];
      '-' !in g && Lower(g) == g && SingleSpaced(g)
  {
    var g := StorageGenres(genres)[k];
    StorageGenresMeaning(genres, g);
    var i :| 0 <= i < |genres| && g == HyphenKey(genres[i]);
    HyphenKeyCanonical(genres[i]);
    HyphenKeySpacing(genres[i]);
  }
}
