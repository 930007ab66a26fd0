/**
 * Fix_Custom_Genres.py: the custom-genres file is rewritten with every
 * genre list normalized again, the artist cache takes the fixed lists, and
 * the playlist-addition pass of CustomPlaylists runs over the fixed entries.
 */
module FixCustomGenres {
  import opened Wrappers
  import opened Lists
  import opened Records
  import opened GenreNormalize
  import opened GenreDedup
  import opened GenrePipeline
  import opened CustomGenreFile
  import opened PlaylistWrites
  import CustomPlaylists

  // ----- fix_custom_genres -----

  /** `artist_data.get('name', f'Artist_{artist_id}')`: the default only when the key is missing, so an empty name stays. */
  function StoredName(name: Option<string>, artistId: string): (r: string)
    ensures name.Some? ==> r == name.value
    ensures name.None? ==> r == "Artist_" + artistId
  {
    if name.Some? then name.value else "Artist_" + artistId
  }

  /** The fixed list of a raw list: `[]` stays `[]`; otherwise normalize and flatten, order-dedup, hyphen-dedup. */
  function FixGenres(raw: seq<string>, norm: string -> seq<string>): seq<string>
  {
    if raw == [] then [] else HyphenDedup(Dedup(FlatMap(raw, norm)))
  }

  /**
   * A fixed list has no two genres sharing a hyphen key, no repeated genre,
   * and holds only labels some raw genre normalizes to.
   */
  lemma FixGenresMeaning(raw: seq<string>, norm: string -> seq<string>, x: string)
    ensures Distinct(Keys(FixGenres(raw, norm), HyphenKey))
    ensures raw == [] ==> FixGenres(raw, norm) == []
    ensures x in FixGenres(raw, norm) ==> exists i :: 0 <= i < |raw| && x in norm(raw[i])
  {
    if raw != [] {
      var d := Dedup(FlatMap(raw, norm));
      if x in HyphenDedup(d) {
        assert x in d;
        FlatMapMember(raw, norm, x);
      }
    } else {
      assert Keys([], HyphenKey) == [];
    }
  }

  /** A fixed list holds no genre twice. */
  lemma FixGenresDistinct(raw: seq<string>, norm: string -> seq<string>)
    ensures Distinct(FixGenres(raw, norm))
  {
    var r := FixGenres(raw, norm);
    FixGenresMeaning(raw, norm, "");
    forall i, j | 0 <= i < j < |r| ensures r[i] != r[j] {
      assert Keys(r, HyphenKey)[i] == HyphenKey(r[i]) && Keys(r, HyphenKey)[j] == HyphenKey(r[j]);
    }
  }

  /** An entry that is a dictionary holding `genres` becomes `{name, genres}`; anything else is kept as is. */
  function FixEntry(artistId: string, e: CustomEntry, norm: string -> seq<string>): CustomEntry
  {
    match e
      case CDict(name, Some(raw), _) => CDict(Some(StoredName(name, artistId)), Some(FixGenres(raw, norm)), None)
      case _ => e
  }

  /** `fixed_genres`: one entry per entry of the file, under the same id. */
  function Fixed(custom: CustomGenres, norm: string -> seq<string>): (r: CustomGenres)
    ensures r.Keys == custom.Keys
    ensures forall a :: a in r ==> r[a] == FixEntry(a, custom[a], norm)
  {
    map a | a in custom :: FixEntry(a, custom[a], norm)
  }

  /** A dictionary entry with `genres` is what the cache update can read. */
  predicate HasGenreList(e: CustomEntry)
  {
    e.CDict? && e.genres.Some?
  }

  /**
   * After fixing, an entry that held genres reads back as its fixed list,
   * with its name or the default one and no error; every other entry is
   * unchanged, so it still lacks a readable genre list.
   */
  lemma FixedEntries(custom: CustomGenres, norm: string -> seq<string>, a: string)
    requires a in custom
    ensures HasGenreList(custom[a]) <==> HasGenreList(Fixed(custom, norm)[a])
    ensures HasGenreList(custom[a]) ==>
      Fixed(custom, norm)[a] == CDict(Some(StoredName(custom[a].name, a)), Some(FixGenres(custom[a].genres.value, norm)), None)
    ensures HasGenreList(custom[a]) ==>
      CustomGenresOf(Fixed(custom, norm), a) == FixGenres(custom[a].genres.value, norm)
    ensures !HasGenreList(custom[a]) ==> Fixed(custom, norm)[a] == custom[a]
  {
  }

  /** What the script leaves: the file written (nothing when it held no entry) and the fixed entries. */
  datatype FixRun = FixRun(written: Option<CustomGenres>, fixed: CustomGenres)

  /** `fix_custom_genres` over the loaded file. */
  function FixFile(file: FileState, norm: string -> seq<string>): (r: FixRun)
    ensures r.fixed == map[] <==> LoadCustomGenres(file) == map[]
    ensures r.written.Some? <==> LoadCustomGenres(file) != map[]
    ensures r.written.Some? ==> r.written.value == r.fixed
  {
    var custom := LoadCustomGenres(file);
    if custom == map[] then FixRun(None, map[])
    else
      var fixed := Fixed(custom, norm);
      assert fixed.Keys == custom.Keys;
      FixRun(Some(fixed), fixed)
  }

  /** The body of the fixing loop for one entry. */
  method FixOneEntry(artistId: string, e: CustomEntry) returns (r: CustomEntry)
    ensures r == FixEntry(artistId, e, Normalized)
  {
    if e.CDict? && e.genres.Some? {
      var rawGenres := e.genres.value;
      var artistName := StoredName(e.name, artistId);
      if rawGenres != [] {
        var normalized := FlattenNormalized(rawGenres);
        var normalizedGenres := Dedup(normalized);
        normalizedGenres := DeduplicateHyphenGenres(normalizedGenres);
        r := CDict(Some(artistName), Some(normalizedGenres), None);
      } else {
        r := CDict(Some(artistName), Some([]), None);
      }
    } else {
      r := e;
    }
  }

  /** `for artist_id, artist_data in custom_genres.items()`: the fixed entries. */
  method FixAll(customGenres: CustomGenres) returns (fixedGenres: CustomGenres)
    ensures fixedGenres == Fixed(customGenres, Normalized)
  {
    fixedGenres := map[];
    var rest := customGenres.Keys;
    while rest != {}
      invariant rest <= customGenres.Keys
      invariant fixedGenres.Keys == customGenres.Keys - rest
      invariant forall a :: a in fixedGenres ==> fixedGenres[a] == FixEntry(a, customGenres[a], Normalized)
      decreases rest
    {
      var artistId :| artistId in rest;
      var e := FixOneEntry(artistId, customGenres[artistId]);
      fixedGenres := fixedGenres[artistId := e];
      rest := rest - {artistId};
    }
  }

  /** `fix_custom_genres`: the fixed entries, saved when the file had any. */
  method FixCustomGenresFile(file: FileState) returns (r: FixRun)
    ensures r == FixFile(file, Normalized)
  {
    var customGenres := LoadCustomGenres(file);
    if customGenres == map[] {
      return FixRun(None, map[]);
    }
    var fixedGenres := FixAll(customGenres);
    r := FixRun(Some(fixedGenres), fixedGenres);
  }

  // ----- update_artist_cache_with_fixed_genres -----

  /** The message of the exception a fixed entry without a readable `genres` list raises. */
  const NoGenreList := "fixed entry has no 'genres' list"

  /** The record the cache holds for a fixed entry: only `genres` replaced, or `{name, genres, country: None}` when new. */
  function Merged(cache: Cache, artistId: string, e: CustomEntry): Record
    requires HasGenreList(e)
  {
    if artistId in cache then cache[artistId].(genres := e.genres.value)
    else Record(Some(StoredName(e.name, artistId)), e.genres.value, Null)
  }

  /** Every fixed entry can be read as `{genres: [...]}`. */
  predicate AllReadable(fixed: CustomGenres)
  {
    forall a :: a in fixed ==> HasGenreList(fixed[a])
  }

  /**
   * The cache once every fixed entry is merged: only `genres` replaced on a
   * cached artist, `{name, genres, country: None}` for a new one, and every
   * other artist unchanged.
   */
  function MergeAll(cache: Cache, fixed: CustomGenres): (r: Cache)
    requires AllReadable(fixed)
    ensures r.Keys == cache.Keys + fixed.Keys
    ensures forall a :: a in r && a !in fixed ==> r[a] == cache[a]
    ensures forall a :: a in fixed && a in cache ==>
      r[a] == Record(cache[a].name, fixed[a].genres.value, cache[a].country)
    ensures forall a :: a in fixed && a !in cache ==>
      r[a] == Record(Some(StoredName(fixed[a].name, a)), fixed[a].genres.value, Null)
  {
    map a | a in cache.Keys + fixed.Keys :: if a in fixed then Merged(cache, a, fixed[a]) else cache[a]
  }

  lemma MergeAllIs(cache: Cache, fixed: CustomGenres, c: Cache)
    requires AllReadable(fixed) && c.Keys == cache.Keys + fixed.Keys
    requires forall a :: a in c ==> c[a] == if a in fixed then Merged(cache, a, fixed[a]) else cache[a]
    ensures c == MergeAll(cache, fixed)
  {
  }

  /**
   * The cache after the update, or the exception when some fixed entry
   * cannot be read as `{genres: [...]}`; the cache is then not saved.
   */
  function CacheWithFixed(cache: Cache, fixed: CustomGenres): (r: Result<Cache>)
    ensures r.Err? <==> !AllReadable(fixed)
    ensures r.Ok? ==> AllReadable(fixed) && r.value == MergeAll(cache, fixed)
  {
    if !AllReadable(fixed) then Err(NoGenreList) else Ok(MergeAll(cache, fixed))
  }

  /** One iteration: `artist_cache[artist_id]['genres'] = ...` or a new entry. */
  method MergeEntry(artistCache: Cache, artistId: string, fixedData: CustomEntry) returns (c: Cache)
    requires HasGenreList(fixedData)
    ensures c == artistCache[artistId := Merged(artistCache, artistId, fixedData)]
  {
    var customGenreList := fixedData.genres.value;
    if artistId in artistCache {
      c := artistCache[artistId := artistCache[artistId].(genres := customGenreList)];
    } else {
      c := artistCache[artistId := Record(Some(StoredName(fixedData.name, artistId)), customGenreList, Null)];
    }
  }

  /** `update_artist_cache_with_fixed_genres`: the merge loop over the fixed entries, then the save. */
  method UpdateArtistCacheWithFixedGenres(artistCache: Cache, fixedGenres: CustomGenres) returns (r: Result<Cache>)
    ensures r == CacheWithFixed(artistCache, fixedGenres)
  {
    var c := artistCache;
    var rest := fixedGenres.Keys;
    while rest != {}
      invariant rest <= fixedGenres.Keys
      invariant forall a :: a in fixedGenres && a !in rest ==> HasGenreList(fixedGenres[a])
      invariant c.Keys == artistCache.Keys + (fixedGenres.Keys - rest)
      invariant forall a :: a in c ==>
        c[a] == if a in fixedGenres && a !in rest then Merged(artistCache, a, fixedGenres[a]) else artistCache[a]
      decreases rest
    {
      var artistId :| artistId in rest;
      var fixedData := fixedGenres[artistId];
      if !(fixedData.CDict? && fixedData.genres.Some?) {
        assert !HasGenreList(fixedGenres[artistId]);
        return Err(NoGenreList);
      }
      assert Merged(c, artistId, fixedData) == Merged(artistCache, artistId, fixedData);
      c := MergeEntry(c, artistId, fixedData);
      rest := rest - {artistId};
    }
    MergeAllIs(artistCache, fixedGenres, c);
    r := Ok(c);
  }

  /**
   * After fixing a file, the cache update raises exactly when some entry of
   * the file was not a dictionary with `genres`; otherwise every such
   * artist's cached genres are its fixed list, its cached name and country
   * kept when it was cached.
   */
  lemma FixThenCache(custom: CustomGenres, cache: Cache, norm: string -> seq<string>, a: string)
    ensures CacheWithFixed(cache, Fixed(custom, norm)).Err? <==> exists b :: b in custom && !HasGenreList(custom[b])
    ensures var r := CacheWithFixed(cache, Fixed(custom, norm));
      r.Ok? && a in custom ==> r.value[a].genres == FixGenres(custom[a].genres.value, norm)
    ensures var r := CacheWithFixed(cache, Fixed(custom, norm));
      r.Ok? && a in custom && a in cache ==> r.value[a].name == cache[a].name && r.value[a].country == cache[a].country
  {
    var fixed := Fixed(custom, norm);
    if exists b :: b in custom && !HasGenreList(custom[b]) {
      var b :| b in custom && !HasGenreList(custom[b]);
      FixedEntries(custom, norm, b);
    } else {
      forall b | b in fixed ensures HasGenreList(fixed[b]) {
        FixedEntries(custom, norm, b);
      }
    }
  }

  // ----- main -----

  /** How the script ends. */
  datatype Outcome =
    | NothingToFix
      /** The cache update raised; the fixed file is written, the cache is not, and no playlist is touched. */
    | CacheFailed(fixedFile: CustomGenres)
    | Done(fixedFile: CustomGenres, cache: Cache, summary: CustomPlaylists.Summary)

  /** `main`: fix the file, update the cache, redo the playlist additions with the fixed entries. */
  function FixAndRedo(file: FileState, cache: Cache, tracks: seq<Item>, existing: map<string, string>, env: Env,
                      norm: string -> seq<string>): (r: Outcome)
    ensures r.NothingToFix? <==> LoadCustomGenres(file) == map[]
  {
    var f := FixFile(file, norm);
    if f.fixed == map[] then NothingToFix
    else match CacheWithFixed(cache, f.fixed)
      case Err(_) => CacheFailed(f.fixed)
      case Ok(c) => Done(f.fixed, c, CustomPlaylists.RedoPass(f.fixed, tracks, existing, env, norm))
  }

  /** `main`: the three steps, an exception in any of them ending the run. */
  method RunFixAndRedo(file: FileState, cache: Cache, tracks: seq<Item>, existing: map<string, string>, env: Env)
    returns (r: Outcome)
    ensures r == FixAndRedo(file, cache, tracks, existing, env, Normalized)
  {
    var f := FixCustomGenresFile(file);
    if f.fixed == map[] {
      return NothingToFix;
    }
    var updated := UpdateArtistCacheWithFixedGenres(cache, f.fixed);
    if updated.Err? {
      return CacheFailed(f.fixed);
    }
    var summary := CustomPlaylists.RedoPlaylistAdditions(f.fixed, tracks, existing, env);
    r := Done(f.fixed, updated.value, summary);
  }

  /**
   * When the script gets to the playlists, every artist it can take has its
   * fixed list, so the cache and the pass read the same genres.
   */
  lemma DoneReadsFixed(file: FileState, cache: Cache, tracks: seq<Item>, existing: map<string, string>, env: Env,
                       norm: string -> seq<string>, a: string)
    requires FixAndRedo(file, cache, tracks, existing, env, norm).Done?
    requires a in LoadCustomGenres(file)
    ensures var d := FixAndRedo(file, cache, tracks, existing, env, norm);
      HasGenreList(LoadCustomGenres(file)[a]) &&
      d.cache[a].genres == CustomGenresOf(d.fixedFile, a) == FixGenres(LoadCustomGenres(file)[a].genres.value, norm)
  {
    var custom := LoadCustomGenres(file);
    FixThenCache(custom, cache, norm, a);
    FixedEntries(custom, norm, a);
  }
}
