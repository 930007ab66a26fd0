/**
 * Main.py: merging the custom-genres file into the artist cache
 * (`update_artist_cache_with_custom_genres`) and the first step's check for
 * artists without genres. The custom entries' genres are read as
 * `get_custom_artist_genres` of model/Artist_Genres.py reads them.
 */
module MainRun {
  import opened Wrappers
  import opened Lists
  import opened Records
  import opened CacheStats
  import opened CustomGenreFile

  /** The one-character strings of a string, in order: what iterating over it gives. */
  function Characters(s: string): seq<string>
  {
    seq(|s|, k requires 0 <= k < |s| => [s[k]])
  }

  /**
   * The list `artist_cache[artist_id]['genres'].extend(custom_genre_list)`
   * adds, as written: extending with an entry object adds the object's KEYS
   * (in the order the writers put them), a bare list adds its items, a
   * string adds its characters one by one, and a value that is not
   * iterable raises TypeError.
   */
  function ExtensionAsWritten(e: CustomEntry): (r: Option<seq<string>>)
    ensures r.None? <==> e.COther?
    ensures e.CText? ==> |r.value| == |e.text| && forall k :: 0 <= k < |e.text| ==> r.value[k] == [e.text[k]]
  {
    match e
      case CDict(name, genres, error) =>
        Some((if name.Some? then ["name"] else []) + (if genres.Some? then ["genres"] else []) +
             (if error.Some? then ["error"] else []))
      case CList(items) => Some(items)
      case CText(text) => Some(Characters(text))
      case COther => None
  }

  /**
   * As written, an artist cached with `["rock"]` whose custom entry is
   * `{"name": "X", "genres": ["pop"]}` gains the genres `"name"` and
   * `"genres"`; read as intended it gains `"pop"`.
   */
  lemma DictEntryAddsKeyNames()
    ensures var e := CDict(Some("X"), Some(["pop"]), None);
      ExtensionAsWritten(e) == Some(["name", "genres"]) &&
      Dedup(["rock"] + ExtensionAsWritten(e).value) == ["rock", "name", "genres"] &&
      Dedup(["rock"] + CustomGenresOf(map["a" := e], "a")) == ["rock", "pop"]
  {
    var e := CDict(Some("X"), Some(["pop"]), None);
    assert ExtensionAsWritten(e).value == ["name", "genres"];
    assert ["rock"] + ["name", "genres"] == ["rock", "name", "genres"];
    KeyNamesKept();
    assert CustomGenresOf(map["a" := e], "a") == ["pop"];
    assert ["rock"] + ["pop"] == ["rock", "pop"];
    PopKept();
  }

  /**
   * As written, an artist cached with `["rock"]` whose custom entry is the
   * string `"pop"` gains the genres `"p"` and `"o"`.
   */
  lemma TextEntryAddsCharacters()
    ensures ExtensionAsWritten(CText("pop")) == Some(["p", "o", "p"])
    ensures Dedup(["rock"] + ExtensionAsWritten(CText("pop")).value) == ["rock", "p", "o"]
  {
    var x := ExtensionAsWritten(CText("pop")).value;
    assert x == ["p", "o", "p"];
    assert ["rock"] + x == ["rock", "p", "o"] + ["p"];
    var d := ["rock", "p", "o"];
    assert Distinct(d) by {
      assert d[0] != d[1] && d[0] != d[2] && d[1] != d[2];
    }
    DedupOfDistinct(d);
    DedupAbsorbs(d, ["p"]);
  }

  /**
   * The `genres` value the merge stores for one artist, as written: for a
   * cached artist, its old genres extended by the entry and de-duplicated,
   * unless the extend raises TypeError (Main.py:45-47); for a new artist,
   * the custom entry itself, stored whole (Main.py:50-54). Every later
   * reader iterates over that value, which gives `ExtensionAsWritten` of it.
   */
  datatype StoredGenres = Extended(genres: seq<string>) | Whole(entry: CustomEntry) | ExtendRaised

  function MergedGenresAsWritten(cache: Cache, custom: CustomGenres, a: string): (r: StoredGenres)
    requires a in custom
    ensures a !in cache ==> r == Whole(custom[a])
    ensures a in cache ==> (r.ExtendRaised? <==> custom[a].COther?) && !r.Whole?
    ensures r.Extended? ==> Distinct(r.genres) && Dedup(cache[a].genres) <= r.genres
    ensures r.Extended? ==> forall g :: g in r.genres <==> g in cache[a].genres || g in ExtensionAsWritten(custom[a]).value
  {
    if a in cache then
      match ExtensionAsWritten(custom[a])
        case Some(extra) =>
          DedupPrefix(cache[a].genres, extra);
          assert forall g :: g in Dedup(cache[a].genres + extra) <==> g in cache[a].genres + extra by {
            forall g ensures g in Dedup(cache[a].genres + extra) <==> g in cache[a].genres + extra {
              DedupMember(cache[a].genres + extra, g);
            }
          }
          Extended(Dedup(cache[a].genres + extra))
        case None => ExtendRaised
    else Whole(custom[a])
  }

  /**
   * As written, a new artist whose entry is an object holding genres stores
   * that object as its genres, so iterating over them gives the key
   * `"genres"` (and `"name"` when present) instead of the genres listed; the
   * intended record holds exactly the genres listed.
   */
  lemma NewArtistStoresEntry(cache: Cache, custom: CustomGenres, a: string)
    requires a in custom && a !in cache
    requires custom[a].CDict? && custom[a].genres.Some?
    ensures MergedGenresAsWritten(cache, custom, a) == Whole(custom[a])
    ensures "genres" in ExtensionAsWritten(custom[a]).value
    ensures custom[a].name.Some? ==> "name" in ExtensionAsWritten(custom[a]).value
    ensures Merged(cache, custom, a).genres == custom[a].genres.value
  {
    var e := custom[a];
    var keys := ExtensionAsWritten(e).value;
    var front := if e.name.Some? then ["name"] else [];
    assert keys == front + ["genres"] + (if e.error.Some? then ["error"] else []);
    assert keys[|front|] == "genres";
    if e.name.Some? {
      assert keys[0] == "name";
    }
  }

  /**
   * The input of the merge's finding on a new artist: the entry
   * `{"name": "X", "genres": ["pop"]}` is stored whole, reads back as
   * `["name", "genres"]`, and is `["pop"]` as intended.
   */
  lemma NewArtistKeyNames()
    ensures var e := CDict(Some("X"), Some(["pop"]), None);
      var custom := map["a" := e];
      MergedGenresAsWritten(map[], custom, "a") == Whole(e) &&
      ExtensionAsWritten(e) == Some(["name", "genres"]) &&
      Merged(map[], custom, "a").genres == ["pop"]
  {
    var e := CDict(Some("X"), Some(["pop"]), None);
    assert ExtensionAsWritten(e).value == ["name", "genres"];
  }

  lemma KeyNamesKept()
    ensures Dedup(["rock", "name", "genres"]) == ["rock", "name", "genres"]
  {
    var asWritten := ["rock", "name", "genres"];
    assert Distinct(asWritten) by {
      assert asWritten[0] != asWritten[1] && asWritten[0] != asWritten[2] && asWritten[1] != asWritten[2];
    }
    DedupOfDistinct(asWritten);
  }

  lemma PopKept()
    ensures Dedup(["rock", "pop"]) == ["rock", "pop"]
  {
    var intended := ["rock", "pop"];
    assert Distinct(intended) by {
      assert intended[0] != intended[1];
    }
    DedupOfDistinct(intended);
  }

  /**
   * One artist's record after the merge, with the entry's genres read as
   * intended: a cached artist's genres are its old genres followed by the
   * custom ones, de-duplicated in order; a new artist gets
   * `{genres, country: None}` and no name.
   */
  function Merged(cache: Cache, custom: CustomGenres, a: string): Record
    requires a in custom
  {
    if a in cache then cache[a].(genres := Dedup(cache[a].genres + CustomGenresOf(custom, a)))
    else Record(None, CustomGenresOf(custom, a), Null)
  }

  /** The cache once every custom entry is merged. */
  function MergeAll(cache: Cache, custom: CustomGenres): (r: Cache)
    ensures r.Keys == cache.Keys + custom.Keys
    ensures forall a :: a in r && a !in custom ==> r[a] == cache[a]
    ensures forall a :: a in custom ==> r[a] == Merged(cache, custom, a)
  {
    map a | a in cache.Keys + custom.Keys :: if a in custom then Merged(cache, custom, a) else cache[a]
  }

  /**
   * A cached artist keeps its name and country; its genres are distinct,
   * start with its old genres de-duplicated, and are exactly the old and
   * the custom ones. A new artist is `{genres, country: None}`.
   */
  lemma MergedMeaning(cache: Cache, custom: CustomGenres, a: string, g: string)
    requires a in custom
    ensures var m := Merged(cache, custom, a);
      (a in cache ==> (m.name == cache[a].name && m.country == cache[a].country &&
                       Distinct(m.genres) && Dedup(cache[a].genres) <= m.genres &&
                       (g in m.genres <==> g in cache[a].genres || g in CustomGenresOf(custom, a)))) &&
      (a !in cache ==> m == Record(None, CustomGenresOf(custom, a), Null))
  {
    if a in cache {
      DedupPrefix(cache[a].genres, CustomGenresOf(custom, a));
      DedupMember(cache[a].genres + CustomGenresOf(custom, a), g);
    }
  }

  lemma DedupMember(s: seq<string>, g: string)
    ensures g in Dedup(s) <==> g in s
  {
    if g in Dedup(s) {
      var i :| 0 <= i < |Dedup(s)| && Dedup(s)[i] == g;
    }
    if g in s {
      var i :| 0 <= i < |s| && s[i] == g;
    }
  }

  lemma MergeAllIs(cache: Cache, custom: CustomGenres, c: Cache)
    requires c.Keys == cache.Keys + custom.Keys
    requires forall a :: a in c ==> c[a] == if a in custom then Merged(cache, custom, a) else cache[a]
    ensures c == MergeAll(cache, custom)
  {
  }

  /** `dict.fromkeys(a + b)` starts with `dict.fromkeys(a)`. */
  lemma {:induction false} DedupPrefix(a: seq<string>, b: seq<string>)
    ensures Dedup(a) <= Dedup(a + b)
  {
    if b != [] {
      var front := b[..|b| - 1];
      DedupPrefix(a, front);
      assert a + b == (a + front) + [b[|b| - 1]];
      DedupSnoc(a + front, b[|b| - 1]);
    } else {
      assert a + b == a;
    }
  }

  /** What `update_artist_cache_with_custom_genres` leaves and the two counts it returns. */
  datatype MergeRun = MergeRun(cache: Cache, updatedCount: nat, artistsStillEmpty: nat)

  /** One iteration of the merging loop. */
  method MergeEntry(artistCache: Cache, original: Cache, custom: CustomGenres, artistId: string) returns (c: Cache)
    requires artistId in custom
    requires artistId in artistCache <==> artistId in original
    requires artistId in original ==> artistCache[artistId] == original[artistId]
    ensures c == artistCache[artistId := Merged(original, custom, artistId)]
  {
    var customGenreList := CustomGenresOf(custom, artistId);
    if artistId in artistCache {
      var genres := artistCache[artistId].genres + customGenreList;
      c := artistCache[artistId := artistCache[artistId].(genres := Dedup(genres))];
    } else {
      c := artistCache[artistId := Record(None, customGenreList, Null)];
    }
  }

  /**
   * `update_artist_cache_with_custom_genres`, with each entry's genres read
   * as intended; `updated_count` is the number of custom entries and
   * `artists_still_empty` is never incremented. `listOf` gives the order in
   * which the file's entries are visited.
   */
  method UpdateArtistCacheWithCustomGenres(artistCache: Cache, customGenres: CustomGenres,
                                           listOf: set<string> -> seq<string>)
    returns (r: Option<MergeRun>)
    requires Enumerates(listOf) && ListsOnce(listOf)
    ensures customGenres == map[] <==> r.None?
    ensures r.Some? ==> r.value == MergeRun(MergeAll(artistCache, customGenres), |customGenres|, 0)
  {
    if customGenres == map[] {
      return None;
    }
    var ids := listOf(customGenres.Keys);
    assert Elems(ids) == customGenres.Keys && Distinct(ids);
    var c, updatedCount := MergeEach(artistCache, customGenres, ids);
    DistinctCard(ids);
    MergeAllIs(artistCache, customGenres, c);
    r := Some(MergeRun(c, updatedCount, 0));
  }

  /** The cache once the entries of `done` are merged. */
  ghost predicate MergedSoFar(c: Cache, artistCache: Cache, customGenres: CustomGenres, done: set<string>)
  {
    done <= customGenres.Keys &&
    c.Keys == artistCache.Keys + done &&
    forall a :: a in c ==> c[a] == if a in done then Merged(artistCache, customGenres, a) else artistCache[a]
  }

  /** Merging one more entry. */
  lemma MergeStep(c: Cache, artistCache: Cache, customGenres: CustomGenres, done: set<string>, a: string)
    requires MergedSoFar(c, artistCache, customGenres, done) && a in customGenres && a !in done
    ensures a in c <==> a in artistCache
    ensures a in artistCache ==> c[a] == artistCache[a]
    ensures MergedSoFar(c[a := Merged(artistCache, customGenres, a)], artistCache, customGenres, done + {a})
  {
  }

  /** The loop over `custom_genres.items()`, visiting the entries in the order `ids`. */
  method MergeEach(artistCache: Cache, customGenres: CustomGenres, ids: seq<string>)
    returns (c: Cache, updatedCount: nat)
    requires Elems(ids) == customGenres.Keys && Distinct(ids)
    ensures MergedSoFar(c, artistCache, customGenres, customGenres.Keys)
    ensures updatedCount == |ids|
  {
    c := artistCache;
    var count := 0;
    for i: nat := 0 to |ids|
      invariant count == i
      invariant MergedSoFar(c, artistCache, customGenres, Elems(ids[..i]))
    {
      var artistId := ids[i];
      assert artistId !in Elems(ids[..i]);
      ElemsStep(ids, i);
      MergeStep(c, artistCache, customGenres, Elems(ids[..i]), artistId);
      c := MergeEntry(c, artistCache, customGenres, artistId);
      count := count + 1;
    }
    assert ids[..|ids|] == ids;
    updatedCount := count;
  }

  /** De-duplicating `s + t` when `t` holds nothing new is de-duplicating `s`. */
  lemma {:induction false} DedupAbsorbs(s: seq<string>, t: seq<string>)
    requires forall k :: 0 <= k < |t| ==> t[k] in s
    ensures Dedup(s + t) == Dedup(s)
  {
    if t != [] {
      var front, last := t[..|t| - 1], t[|t| - 1];
      DedupAbsorbs(s, front);
      assert t == front + [last];
      assert s + (front + [last]) == (s + front) + [last];
      assert last in s + front by {
        var j :| 0 <= j < |s| && s[j] == last;
        assert (s + front)[j] == last;
      }
      DedupSnoc(s + front, last);
    } else {
      assert s + t == s;
    }
  }

  /**
   * Merging the same file a second time changes nothing but de-duplicating
   * the genres of the artists it added.
   */
  lemma MergeAllTwice(cache: Cache, custom: CustomGenres)
    ensures var once := MergeAll(cache, custom);
      var twice := MergeAll(once, custom);
      twice.Keys == once.Keys &&
      (forall a :: a in custom ==> twice[a] == once[a].(genres := Dedup(once[a].genres))) &&
      (forall a :: a in once && a !in custom ==> twice[a] == once[a])
  {
    var once := MergeAll(cache, custom);
    forall a | a in custom
      ensures Merged(once, custom, a) == once[a].(genres := Dedup(once[a].genres))
    {
      MergedTwice(cache, custom, a);
    }
  }

  /** One artist of the file, merged twice. */
  lemma MergedTwice(cache: Cache, custom: CustomGenres, a: string)
    requires a in custom
    ensures var once := MergeAll(cache, custom);
      Merged(once, custom, a) == once[a].(genres := Dedup(once[a].genres))
  {
    var extra := CustomGenresOf(custom, a);
    if a in cache {
      var both := cache[a].genres + extra;
      assert MergeAll(cache, custom)[a].genres == Dedup(both);
      ExtraKept(cache[a].genres, extra);
      DedupAbsorbs(Dedup(both), extra);
    } else {
      DedupAbsorbs(extra, extra);
    }
  }

  /** What was appended is in the de-duplicated whole. */
  lemma ExtraKept(s: seq<string>, extra: seq<string>)
    ensures forall k :: 0 <= k < |extra| ==> extra[k] in Dedup(s + extra)
  {
    forall k | 0 <= k < |extra|
      ensures extra[k] in Dedup(s + extra)
    {
      assert extra[k] == (s + extra)[|s| + k];
    }
  }

  /**
   * `check_artists_without_genres`: `False` when every cached artist has
   * genres; otherwise whether the list of such artists was written
   * (`listWritten`).
   */
  function CheckArtistsWithoutGenres(cache: Cache, listWritten: bool): (r: bool)
    ensures r <==> |WithoutGenres(cache)| > 0 && listWritten
    ensures !r && listWritten ==> |WithGenres(cache)| == |cache|
  {
    StatsPartition(cache);
    |WithoutGenres(cache)| != 0 && listWritten
  }

  // ----- populate_custom_genres_if_needed and main -----

  /**
   * What step 2 finds on disk and gets from populating: the custom-genres
   * file as loaded (`None` when it does not exist), whether the list of
   * artists without genres exists, and the custom genres loaded after
   * populating (`None` when populating raised or wrote no file).
   */
  datatype StepTwoInputs = StepTwoInputs(customFile: Option<CustomGenres>, listExists: bool,
                                         populated: Option<CustomGenres>)

  /** Step 2's outcome: whether it succeeded, and the custom genres merged into the cache, if any. */
  datatype StepTwo = StepTwo(ok: bool, mergedFrom: Option<CustomGenres>)

  /**
   * `populate_custom_genres_if_needed`: a non-empty custom-genres file is
   * merged at once; otherwise, without the list there is nothing to do;
   * otherwise the file populating produced is merged, and the step fails
   * when populating raised or produced no file.
   */
  function PopulateIfNeeded(in2: StepTwoInputs): (r: StepTwo)
    ensures r.mergedFrom.Some? ==> r.ok
    ensures in2.customFile.Some? && in2.customFile.value != map[] ==> r.mergedFrom == in2.customFile
    ensures !r.ok <==> !(in2.customFile.Some? && in2.customFile.value != map[]) && in2.listExists && in2.populated.None?
    ensures r.mergedFrom.None? <==>
              !(in2.customFile.Some? && in2.customFile.value != map[]) && (!in2.listExists || in2.populated.None?)
  {
    if in2.customFile.Some? && in2.customFile.value != map[] then StepTwo(true, in2.customFile)
    else if !in2.listExists then StepTwo(true, None)
    else if in2.populated.None? then StepTwo(false, None)
    else StepTwo(true, in2.populated)
  }

  /** What `main` ends with: its result, whether step 2 ran, and the cache step 2 leaves. */
  datatype PipelineRun = PipelineRun(success: bool, stepTwoRan: bool, cache: Cache)

  /**
   * `main`: step 1's check, step 2 only when it reports artists without
   * genres, whose failure only warns, then step 3, whose result is the
   * result of the run (`playlistsCreated`).
   */
  function Pipeline(cache: Cache, listWritten: bool, in2: StepTwoInputs, playlistsCreated: bool): (r: PipelineRun)
    ensures r.success == playlistsCreated
    ensures r.stepTwoRan <==> |WithoutGenres(cache)| > 0 && listWritten
    ensures r.cache.Keys >= cache.Keys
  {
    var stepOne := CheckArtistsWithoutGenres(cache, listWritten);
    var merged := if stepOne then PopulateIfNeeded(in2).mergedFrom else None;
    var c := if merged.Some? then MergeAll(cache, merged.value) else cache;
    PipelineRun(playlistsCreated, stepOne, c)
  }

  /** Merging an empty custom-genres file changes nothing. */
  lemma MergeAllEmpty(cache: Cache)
    ensures MergeAll(cache, map[]) == cache
  {
    var r := MergeAll(cache, map[]);
    assert r.Keys == cache.Keys;
    assert forall a :: a in r ==> r[a] == cache[a];
  }

  /**
   * The cache changes only through step 2: when every cached artist has
   * genres, or the list was not written, the cache is as it was; when step 2
   * runs with a non-empty custom-genres file, the cache is that file merged.
   */
  lemma PipelineCache(cache: Cache, listWritten: bool, in2: StepTwoInputs, playlistsCreated: bool)
    ensures var r := Pipeline(cache, listWritten, in2, playlistsCreated);
      (|WithoutGenres(cache)| == 0 || !listWritten ==> r.cache == cache) &&
      (r.stepTwoRan && in2.customFile.Some? && in2.customFile.value != map[] ==>
         r.cache == MergeAll(cache, in2.customFile.value)) &&
      (r.stepTwoRan && !(in2.customFile.Some? && in2.customFile.value != map[]) && !in2.listExists ==>
         r.cache == cache)
  {
  }

  /** A file populated but empty leaves the cache as it was, though step 2 succeeds. */
  lemma PopulatedEmptyMergesNothing(cache: Cache, listWritten: bool, in2: StepTwoInputs, playlistsCreated: bool)
    requires !(in2.customFile.Some? && in2.customFile.value != map[]) && in2.listExists && in2.populated == Some(map[])
    ensures PopulateIfNeeded(in2).ok
    ensures Pipeline(cache, listWritten, in2, playlistsCreated).cache == cache
  {
    MergeAllEmpty(cache);
  }

  /** The process exit status: 0 exactly when the run succeeded, 1 otherwise. */
  function ExitStatus(r: PipelineRun): (code: int)
    ensures code == 0 <==> r.success
    ensures 0 <= code <= 1
  {
    if r.success then 0 else 1
  }
}
