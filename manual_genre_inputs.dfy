/**
 * Manual_Genre_Inputs.py: the artists of the cache with no genres, or with
 * only a generic regional tag, are visited in the cache's order and the
 * user types genres for each. The prompt's answers are a list read from
 * the front; running out of answers is the `EOFError` `input()` raises.
 * `names` is the catalog's answer to the name lookup, `None` when it failed.
 * The whole cache is written once, after the last artist; the name lookup
 * writes it too whenever it fetches a missing name.
 */
module ManualGenreInputs {
  import opened Wrappers
  import opened Text
  import opened Lists
  import opened Records
  import opened Sorting
  import opened GenreDedup
  import opened GenrePipeline
  import opened GenreNormalize
  import opened GenreInput
  import ArtistLookup

  /** A tag in `{"brazilian music", "japanese music"}` once lower-cased. */
  predicate GenericRegional(g: string)
  {
    Lower(g) == "brazilian music" || Lower(g) == "japanese music"
  }

  /** No genres, or a single generic regional one. */
  predicate NeedsGenres(r: Record)
  {
    r.genres == [] || (|r.genres| == 1 && GenericRegional(r.genres[0]))
  }

  function Unfinished(cache: Cache): string -> bool
  {
    a => a in cache && NeedsGenres(cache[a])
  }

  /** `get_artists_without_genres`, visiting the cache's ids in the order `ids`. */
  method ArtistsWithoutGenres(cache: Cache, ids: seq<string>) returns (r: seq<string>)
    ensures r == Filter(ids, Unfinished(cache))
  {
    r := FilterLoop(ids, Unfinished(cache));
  }

  /**
   * The selected artists are listed once each, and they are exactly the
   * cached artists with no genres or a single generic regional genre.
   */
  lemma SelectionMeaning(cache: Cache, listOf: set<string> -> seq<string>, x: string)
    requires Enumerates(listOf) && ListsOnce(listOf)
    ensures var r := Filter(listOf(cache.Keys), Unfinished(cache));
      Distinct(r) &&
      (x in r <==> x in cache && (cache[x].genres == [] ||
                                  (|cache[x].genres| == 1 && GenericRegional(cache[x].genres[0]))))
  {
    var ids := listOf(cache.Keys);
    assert Elems(ids) == cache.Keys && Distinct(ids);
    FilterDistinct(ids, Unfinished(cache));
    FilterMember(ids, Unfinished(cache), x);
  }

  /**
   * The genres stored for typed genres: every genre normalized, the labels
   * de-duplicated in order, then de-duplicated by hyphen key.
   */
  function ManualLabels(genres: seq<string>): seq<string>
  {
    HyphenDedup(Dedup(FlatMap(genres, Normalized)))
  }

  /** What one answer to the prompt decides. */
  datatype Answer = QuitAnswer | SkipAnswer | Reprompt | GenresAnswer(genres: seq<string>)

  /**
   * One pass of the inner `while True` loop: the answer is stripped; `quit`
   * (in any case) leaves, an empty answer skips the artist, an answer whose
   * comma-separated pieces are all blank asks again, and anything else is
   * the list of its non-blank stripped pieces.
   */
  function Classify(answer: string): (r: Answer)
    ensures r.GenresAnswer? ==> r.genres != [] && r.genres == SplitGenres(Strip(answer))
    ensures r == Reprompt <==> Lower(Strip(answer)) != "quit" && Strip(answer) != "" && SplitGenres(Strip(answer)) == []
  {
    var s := Strip(answer);
    if Lower(s) == "quit" then QuitAnswer
    else if s == "" then SkipAnswer
    else if SplitGenres(s) == [] then Reprompt
    else GenresAnswer(SplitGenres(s))
  }

  /** A blank answer skips the artist. */
  lemma BlankSkips(answer: string)
    requires forall i :: 0 <= i < |answer| ==> IsSpace(answer[i])
    ensures Classify(answer) == SkipAnswer
  {
    StripBlank(answer);
  }

  /** An answer that is a lone comma asks again. */
  lemma CommaReprompts()
    ensures Classify(",") == Reprompt
  {
    StripPadded("", ",", "");
    assert "" + "," + "" == ",";
    SplitOnCons("", "", ',');
    assert "" + [','] + "" == ",";
    assert SplitOn("", ',') == [""];
    assert StripEach(["", ""]) == ["", ""];
    assert KeepNonEmpty(["", ""]) == [];
  }

  /** Every answer, classified. */
  function Classified(answers: seq<string>): (r: seq<Answer>)
    ensures |r| == |answers| && forall i :: 0 <= i < |answers| ==> r[i] == Classify(answers[i])
  {
    seq(|answers|, i requires 0 <= i < |answers| => Classify(answers[i]))
  }

  /**
   * The inner loop: the first answer from `pos` on that is not `Reprompt`,
   * and the position after it. `None` when the answers run out.
   */
  function NextAnswer(kinds: seq<Answer>, pos: nat): (r: Option<(Answer, nat)>)
    requires pos <= |kinds|
    ensures r.Some? ==> pos < r.value.1 <= |kinds| && r.value.0 == kinds[r.value.1 - 1] && r.value.0 != Reprompt
    ensures r.None? ==> forall k :: pos <= k < |kinds| ==> kinds[k] == Reprompt
    decreases |kinds| - pos
  {
    if pos == |kinds| then None
    else if kinds[pos] == Reprompt then NextAnswer(kinds, pos + 1)
    else Some((kinds[pos], pos + 1))
  }

  /** A run of answers that ask again is passed over. */
  lemma {:induction false} RepromptsPassed(kinds: seq<Answer>, pos: nat, n: nat)
    requires pos + n <= |kinds|
    requires forall k :: pos <= k < pos + n ==> kinds[k] == Reprompt
    ensures NextAnswer(kinds, pos) == NextAnswer(kinds, pos + n)
    decreases n
  {
    if n > 0 {
      RepromptsPassed(kinds, pos + 1, n - 1);
    }
  }

  /** The inner loop over the answers. */
  method ReadAnswer(answers: seq<string>, pos: nat) returns (next: Option<(Answer, nat)>)
    requires pos <= |answers|
    ensures next == NextAnswer(Classified(answers), pos)
  {
    ghost var kinds := Classified(answers);
    var p := pos;
    while p < |answers|
      invariant pos <= p <= |answers|
      invariant NextAnswer(kinds, p) == NextAnswer(kinds, pos)
      decreases |answers| - p
    {
      var genresInput := Strip(answers[p]);
      if Lower(genresInput) == "quit" {
        return Some((QuitAnswer, p + 1));
      }
      if genresInput == "" {
        return Some((SkipAnswer, p + 1));
      }
      var genres := SplitGenres(genresInput);
      if genres != [] {
        return Some((GenresAnswer(genres), p + 1));
      }
      p := p + 1;
    }
    return None;
  }

  /**
   * The stored labels have pairwise different hyphen keys; each is a label
   * of a typed genre, and every label of a typed genre is stored under its key.
   */
  lemma ManualLabelsMeaning(genres: seq<string>, x: string)
    ensures Distinct(Keys(ManualLabels(genres), HyphenKey))
    ensures x in ManualLabels(genres) ==> exists i :: 0 <= i < |genres| && x in Normalized(genres[i])
    ensures (exists i :: 0 <= i < |genres| && x in Normalized(genres[i])) ==>
      HyphenKey(x) in Keys(ManualLabels(genres), HyphenKey)
  {
    var flat := FlatMap(genres, Normalized);
    var unique := Dedup(flat);
    FlatMapMember(genres, Normalized, x);
    if x in flat {
      var j :| 0 <= j < |unique| && unique[j] == x;
    }
  }

  /** `artist_cache[artist_id]['genres'] = genres`, creating an entry with only genres when there is none. */
  function SetGenres(cache: Cache, artistId: string, genres: seq<string>): Cache
  {
    if artistId in cache then cache[artistId := cache[artistId].(genres := genres)]
    else cache[artistId := Record(None, genres, Absent)]
  }

  /** A missing entry is created holding only the genres; an existing one changes only its genres. */
  lemma SetGenresEntry(cache: Cache, artistId: string, genres: seq<string>)
    ensures var r := SetGenres(cache, artistId, genres);
      r.Keys == cache.Keys + {artistId} && r[artistId].genres == genres &&
      (artistId !in cache ==> r[artistId] == Record(None, genres, Absent)) &&
      (artistId in cache ==> r[artistId].name == cache[artistId].name && r[artistId].country == cache[artistId].country) &&
      forall a :: a in cache && a != artistId ==> r[a] == cache[a]
  {
  }

  /** How a run ended: all artists visited, `quit`, or the answers ran out. */
  datatype Ending = Finished | Quit | OutOfInput

  /**
   * The state of a run: the cache in memory, the cache as last written
   * (`None` when nothing was written), the two counters, the next answer
   * and how the run ended (`Finished` while it goes on).
   */
  datatype ManualRun = ManualRun(cache: Cache, saved: Option<Cache>, processed: nat, skipped: nat,
                                 pos: nat, ending: Ending)

  /** The name lookup fetches, and so writes the cache, when the cache has no name. */
  predicate NameSaves(artistId: string, cache: Cache, fetched: Option<Artist>)
  {
    !(artistId in cache && cache[artistId].HasName()) && fetched.Some?
  }

  /**
   * What a run reads from outside the cache: the classified answers, the
   * catalog's answer to each name lookup, and the labelling of typed genres
   * (`ManualLabels` in a run of the script).
   */
  datatype Inputs = Inputs(kinds: seq<Answer>, names: string -> Option<Artist>, labelling: seq<string> -> seq<string>)

  /** The name lookup: it fills in a missing name, and writes the cache when it fetched one. */
  function LookedUp(artistId: string, st: ManualRun, names: string -> Option<Artist>): (r: ManualRun)
    ensures r.pos == st.pos && r.processed == st.processed && r.skipped == st.skipped && r.ending == st.ending
    ensures r.saved == if NameSaves(artistId, st.cache, names(artistId)) then Some(r.cache) else st.saved
  {
    var fetched := names(artistId);
    var c := ArtistLookup.ArtistNameFromCache(artistId, st.cache, fetched).1;
    st.(cache := c, saved := if NameSaves(artistId, st.cache, fetched) then Some(c) else st.saved)
  }

  /** The answer read for the artist, `next` as `NextAnswer` finds it, and what it does. */
  function Answered(artistId: string, st: ManualRun, next: Option<(Answer, nat)>, end: nat,
                    labelling: seq<string> -> seq<string>): ManualRun
  {
    match next
      case None => st.(pos := end, ending := OutOfInput)
      case Some(next) =>
        match next.0
          case QuitAnswer => st.(pos := next.1, ending := Quit)
          case SkipAnswer => st.(skipped := st.skipped + 1, pos := next.1)
          case Reprompt => st
          case GenresAnswer(genres) =>
            st.(cache := SetGenres(st.cache, artistId, labelling(genres)), processed := st.processed + 1, pos := next.1)
  }

  /** One artist: the name lookup, then the answer. */
  function Visit(artistId: string, st: ManualRun, env: Inputs): (r: ManualRun)
    requires st.pos <= |env.kinds|
    ensures r.pos <= |env.kinds|
  {
    Answered(artistId, LookedUp(artistId, st, env.names), NextAnswer(env.kinds, st.pos), |env.kinds|, env.labelling)
  }

  /** The artists from the `k`-th on, until the run ends. */
  function VisitFrom(ids: seq<string>, k: nat, st: ManualRun, env: Inputs): (r: ManualRun)
    requires k <= |ids| && st.pos <= |env.kinds|
    ensures r.pos <= |env.kinds|
    decreases |ids| - k
  {
    if k == |ids| || st.ending != Finished then st
    else VisitFrom(ids, k + 1, Visit(ids[k], st, env), env)
  }

  /**
   * `manual_genre_input` once the artists to visit are chosen: the state it
   * leaves. With artists to visit, a finished run ends by writing the cache.
   */
  function ManualPass(cache: Cache, ids: seq<string>, env: Inputs): ManualRun
  {
    var init := ManualRun(cache, None, 0, 0, 0, Finished);
    if ids == [] then init
    else
      var r := VisitFrom(ids, 0, init, env);
      if r.ending == Finished then r.(saved := Some(r.cache)) else r
  }

  /** The normalizing and de-duplicating loops run on typed genres. */
  method LabelTyped(genres: seq<string>) returns (r: seq<string>)
    ensures r == ManualLabels(genres)
  {
    var normalizedGenres := FlattenNormalized(genres);
    var uniqueNormalizedGenres := DedupLoop(normalizedGenres);
    r := DeduplicateHyphenGenres(uniqueNormalizedGenres);
  }

  /** One pass of the `for` loop's body: the name lookup, the prompt, and the update. */
  method VisitArtist(artistId: string, st: ManualRun, answers: seq<string>, names: string -> Option<Artist>)
    returns (r: ManualRun)
    requires st.pos <= |answers|
    ensures r == Visit(artistId, st, Inputs(Classified(answers), names, ManualLabels))
  {
    var looked := LookedUp(artistId, st, names);
    var next := ReadAnswer(answers, st.pos);
    r := AnswerArtist(artistId, looked, next, |answers|);
  }

  /** The update the answer asks for. */
  method AnswerArtist(artistId: string, st: ManualRun, next: Option<(Answer, nat)>, end: nat)
    returns (r: ManualRun)
    requires next.Some? ==> next.value.0 != Reprompt
    ensures r == Answered(artistId, st, next, end, ManualLabels)
  {
    if next.None? {
      return st.(pos := end, ending := OutOfInput);
    }
    var (answer, p) := next.value;
    match answer {
      case QuitAnswer =>
        r := st.(pos := p, ending := Quit);
      case SkipAnswer =>
        r := st.(skipped := st.skipped + 1, pos := p);
      case Reprompt =>
        assert false;
      case GenresAnswer(genres) =>
        var uniqueNormalizedGenres := LabelTyped(genres);
        var artistCache := SetGenres(st.cache, artistId, uniqueNormalizedGenres);
        r := st.(cache := artistCache, processed := st.processed + 1, pos := p);
    }
  }

  /** `manual_genre_input`, the answers and the catalog's name lookups given. */
  method ManualGenreInput(cache: Cache, listOf: set<string> -> seq<string>, answers: seq<string>,
                          names: string -> Option<Artist>)
    returns (r: ManualRun)
    ensures r == ManualPass(cache, Filter(listOf(cache.Keys), Unfinished(cache)),
                            Inputs(Classified(answers), names, ManualLabels))
  {
    var artistsWithoutGenres := ArtistsWithoutGenres(cache, listOf(cache.Keys));
    var init := ManualRun(cache, None, 0, 0, 0, Finished);
    if artistsWithoutGenres == [] {
      return init;
    }
    ghost var env := Inputs(Classified(answers), names, ManualLabels);
    var st := init;
    for i: nat := 0 to |artistsWithoutGenres|
      invariant st.pos <= |answers| && st.ending == Finished
      invariant VisitFrom(artistsWithoutGenres, i, st, env) == VisitFrom(artistsWithoutGenres, 0, init, env)
    {
      st := VisitArtist(artistsWithoutGenres[i], st, answers, names);
      if st.ending != Finished {
        return st;
      }
    }
    r := st.(saved := Some(st.cache));
  }

  /**
   * What the visits may do to the cache: the keys stay; an artist that is
   * not visited is untouched; a visited artist keeps its country, and its
   * genres are what they were or the labels of the genres of one of the answers.
   */
  ghost predicate EditedFrom(cache: Cache, c: Cache, ids: seq<string>, env: Inputs)
  {
    c.Keys == cache.Keys && forall a :: a in cache ==> ArtistEdited(cache[a], c[a], a in ids, env)
  }

  /** One artist's record `now`, against the record it had `before`, visited or not. */
  ghost predicate ArtistEdited(before: Record, now: Record, visited: bool, env: Inputs)
  {
    now.country == before.country &&
    (!visited ==> now == before) &&
    (now.genres == before.genres ||
     exists j :: 0 <= j < |env.kinds| && env.kinds[j].GenresAnswer? && now.genres == env.labelling(env.kinds[j].genres))
  }

  lemma VisitEdits(cache: Cache, ids: seq<string>, k: nat, st: ManualRun, env: Inputs)
    requires k < |ids| && ids[k] in cache && st.pos <= |env.kinds|
    requires EditedFrom(cache, st.cache, ids, env)
    ensures EditedFrom(cache, Visit(ids[k], st, env).cache, ids, env)
  {
    var id := ids[k];
    var fetched := env.names(id);
    var c := ArtistLookup.ArtistNameFromCache(id, st.cache, fetched).1;
    if fetched.Some? {
      ArtistLookup.ArtistNameKeepsRecord(id, st.cache, fetched.value);
    }
    assert EditedFrom(cache, c, ids, env);
    var next := NextAnswer(env.kinds, st.pos);
    if next.Some? && next.value.0.GenresAnswer? {
      var j := next.value.1 - 1;
      var c' := SetGenres(c, id, env.labelling(env.kinds[j].genres));
      assert c'[id].genres == env.labelling(env.kinds[j].genres);
      assert EditedFrom(cache, c', ids, env);
    }
  }

  lemma {:induction false} VisitFromEdits(cache: Cache, ids: seq<string>, k: nat, st: ManualRun, env: Inputs)
    requires k <= |ids| && st.pos <= |env.kinds|
    requires forall i :: 0 <= i < |ids| ==> ids[i] in cache
    requires EditedFrom(cache, st.cache, ids, env)
    ensures EditedFrom(cache, VisitFrom(ids, k, st, env).cache, ids, env)
    decreases |ids| - k
  {
    if k < |ids| && st.ending == Finished {
      var next := Visit(ids[k], st, env);
      VisitEdits(cache, ids, k, st, env);
      VisitFromEdits(cache, ids, k + 1, next, env);
    }
  }

  /**
   * The run keeps every artist and every country; an artist that is not
   * visited is left as it was; a visited artist's genres are what they were
   * or the labels of the genres typed in one of the answers.
   */
  lemma ManualEdits(cache: Cache, ids: seq<string>, env: Inputs, a: string)
    requires forall i :: 0 <= i < |ids| ==> ids[i] in cache
    requires a in cache
    ensures var r := ManualPass(cache, ids, env);
      r.cache.Keys == cache.Keys && r.cache[a].country == cache[a].country &&
      (a !in ids ==> r.cache[a] == cache[a]) &&
      (r.cache[a].genres == cache[a].genres ||
       exists j :: 0 <= j < |env.kinds| && env.kinds[j].GenresAnswer? && r.cache[a].genres == env.labelling(env.kinds[j].genres))
  {
    if ids != [] {
      VisitFromEdits(cache, ids, 0, ManualRun(cache, None, 0, 0, 0, Finished), env);
    }
  }

  /**
   * Each visited artist is counted once, as processed or as skipped, and a
   * run that ends early does not count the artist it stopped at.
   */
  lemma {:induction false} VisitFromCounts(ids: seq<string>, k: nat, st: ManualRun, env: Inputs)
    requires k <= |ids| && st.pos <= |env.kinds|
    ensures var r := VisitFrom(ids, k, st, env);
      st.processed + st.skipped <= r.processed + r.skipped <= st.processed + st.skipped + (|ids| - k) &&
      (st.ending == Finished && r.ending == Finished ==> r.processed + r.skipped == st.processed + st.skipped + (|ids| - k)) &&
      (st.ending != Finished ==> r == st)
    decreases |ids| - k
  {
    if k < |ids| && st.ending == Finished {
      VisitFromCounts(ids, k + 1, Visit(ids[k], st, env), env);
    }
  }

  /**
   * The counters: at most one per visited artist, and exactly one per
   * visited artist when the run finished.
   */
  lemma ManualCounts(cache: Cache, ids: seq<string>, env: Inputs)
    ensures var r := ManualPass(cache, ids, env);
      r.processed + r.skipped <= |ids| &&
      (r.ending == Finished ==> r.processed + r.skipped == |ids|)
  {
    VisitFromCounts(ids, 0, ManualRun(cache, None, 0, 0, 0, Finished), env);
  }

  lemma {:induction false} VisitFromSaves(ids: seq<string>, k: nat, st: ManualRun, env: Inputs)
    requires k <= |ids| && st.pos <= |env.kinds|
    requires forall a :: a in st.cache ==> st.cache[a].HasName()
    requires forall i :: 0 <= i < |ids| ==> ids[i] in st.cache
    ensures var r := VisitFrom(ids, k, st, env);
      r.saved == st.saved && r.cache.Keys == st.cache.Keys && forall a :: a in r.cache ==> r.cache[a].HasName()
    decreases |ids| - k
  {
    if k < |ids| && st.ending == Finished {
      var next := Visit(ids[k], st, env);
      assert !NameSaves(ids[k], st.cache, env.names(ids[k]));
      assert next.cache.Keys == st.cache.Keys;
      VisitFromSaves(ids, k + 1, next, env);
    }
  }

  /**
   * The file is written at the end of a finished run only; a run stopped by
   * `quit` or by running out of answers, in a cache where every artist has a
   * name, writes nothing, so the genres typed in it are lost.
   */
  lemma ManualSaves(cache: Cache, ids: seq<string>, env: Inputs)
    requires forall i :: 0 <= i < |ids| ==> ids[i] in cache
    ensures var r := ManualPass(cache, ids, env);
      (r.ending == Finished && ids != [] ==> r.saved == Some(r.cache)) &&
      ((forall a :: a in cache ==> cache[a].HasName()) && r.ending != Finished ==> r.saved == None)
  {
    if forall a :: a in cache ==> cache[a].HasName() {
      VisitFromSaves(ids, 0, ManualRun(cache, None, 0, 0, 0, Finished), env);
    }
  }
}
