/**
 * Manual_Country_Inputs.py: the cached artists whose country is `None`
 * (missing or `null`) are visited in the cache's order, one answer each;
 * `exit` stops, a non-empty answer becomes the artist's country and the
 * cache is written at once, a blank answer skips. The answers are a list
 * read from the front; running out of answers is the `EOFError` `input()`
 * raises. `names` is the catalog's answer to the name lookup, `None` when
 * it failed; the lookup writes the cache whenever it fetches a missing name.
 */
module ManualCountryInputs {
  import opened Wrappers
  import opened Text
  import opened Lists
  import opened Records
  import opened Sorting
  import opened ManualGenreInputs
  import ArtistLookup

  function NoCountry(cache: Cache): string -> bool
  {
    a => a in cache && cache[a].Country().None?
  }

  /** Every selected artist is cached without a country. */
  lemma SelectedHaveNoCountry(cache: Cache, ids: seq<string>)
    ensures forall i :: 0 <= i < |Filter(ids, NoCountry(cache))| ==>
      Filter(ids, NoCountry(cache))[i] in cache && cache[Filter(ids, NoCountry(cache))[i]].Country().None?
  {
    var r := Filter(ids, NoCountry(cache));
    forall i | 0 <= i < |r| ensures r[i] in cache && cache[r[i]].Country().None? {
      FilterMember(ids, NoCountry(cache), r[i]);
    }
  }

  /** `null_country_artists`, the cache's ids visited in the order `ids`. */
  function NullCountryArtists(cache: Cache, ids: seq<string>): (r: seq<string>)
    ensures forall i :: 0 <= i < |r| ==> r[i] in cache && cache[r[i]].Country().None?
  {
    SelectedHaveNoCountry(cache, ids);
    Filter(ids, NoCountry(cache))
  }

  /**
   * The artists listed are exactly the cached ones whose country is `None`,
   * once each.
   */
  lemma NullCountryMeaning(cache: Cache, listOf: set<string> -> seq<string>, x: string)
    requires Enumerates(listOf) && ListsOnce(listOf)
    ensures var r := NullCountryArtists(cache, listOf(cache.Keys));
      Distinct(r) && (x in r <==> x in cache && cache[x].Country().None?)
  {
    var ids := listOf(cache.Keys);
    assert Elems(ids) == cache.Keys && Distinct(ids);
    FilterDistinct(ids, NoCountry(cache));
    FilterMember(ids, NoCountry(cache), x);
  }

  /** The state of a run: the cache in memory, the cache as last written, `updated`, and how it ended. */
  datatype CountryRun = CountryRun(cache: Cache, saved: Option<Cache>, updated: bool, ending: Ending)

  /** An answer that sets a country: not blank and not `exit`. */
  predicate GivesCountry(answer: string)
  {
    Strip(answer) != "" && Lower(Strip(answer)) != "exit"
  }

  /** `cache[artist_id]['country'] = country`. */
  function SetCountry(cache: Cache, artistId: string, country: string): (r: Cache)
    requires artistId in cache
    ensures r.Keys == cache.Keys && r[artistId].country == Present(country)
    ensures r[artistId].name == cache[artistId].name && r[artistId].genres == cache[artistId].genres
    ensures forall a :: a in cache && a != artistId ==> r[a] == cache[a]
  {
    cache[artistId := cache[artistId].(country := Present(country))]
  }

  /** The `k`-th artist: the name lookup, then the `k`-th answer. */
  function VisitCountry(artistId: string, k: nat, st: CountryRun, answers: seq<string>,
                        names: string -> Option<Artist>): (r: CountryRun)
    requires artistId in st.cache
    ensures r.cache.Keys == st.cache.Keys
  {
    var fetched := names(artistId);
    var c := ArtistLookup.ArtistNameFromCache(artistId, st.cache, fetched).1;
    var saved := if NameSaves(artistId, st.cache, fetched) then Some(c) else st.saved;
    if k >= |answers| then CountryRun(c, saved, st.updated, OutOfInput)
    else
      var country := Strip(answers[k]);
      if Lower(country) == "exit" then CountryRun(c, saved, st.updated, Quit)
      else if country != "" then
        var c' := SetCountry(c, artistId, country);
        CountryRun(c', Some(c'), true, Finished)
      else CountryRun(c, saved, st.updated, Finished)
  }

  /** The artists from the `k`-th on, until the run ends. */
  function CountriesFrom(ids: seq<string>, k: nat, st: CountryRun, answers: seq<string>,
                         names: string -> Option<Artist>): (r: CountryRun)
    requires k <= |ids| && forall i :: k <= i < |ids| ==> ids[i] in st.cache
    ensures r.cache.Keys == st.cache.Keys
    decreases |ids| - k
  {
    if k == |ids| || st.ending != Finished then st
    else CountriesFrom(ids, k + 1, VisitCountry(ids[k], k, st, answers, names), answers, names)
  }

  /** `prompt_and_update_countries` once the artists to visit are chosen. */
  function CountryPass(cache: Cache, ids: seq<string>, answers: seq<string>,
                       names: string -> Option<Artist>): CountryRun
    requires forall i :: 0 <= i < |ids| ==> ids[i] in cache
  {
    CountriesFrom(ids, 0, CountryRun(cache, None, false, Finished), answers, names)
  }

  /** `prompt_and_update_countries`, the answers and the catalog's name lookups given. */
  method PromptAndUpdateCountries(cache: Cache, listOf: set<string> -> seq<string>, answers: seq<string>,
                                  names: string -> Option<Artist>)
    returns (r: CountryRun)
    ensures r == CountryPass(cache, NullCountryArtists(cache, listOf(cache.Keys)), answers, names)
  {
    var nullCountryArtists := FilterLoop(listOf(cache.Keys), NoCountry(cache));
    ghost var init := CountryRun(cache, None, false, Finished);
    assert nullCountryArtists == NullCountryArtists(cache, listOf(cache.Keys));
    var artistCache, saved, updated := cache, None, false;
    for i: nat := 0 to |nullCountryArtists|
      invariant artistCache.Keys == cache.Keys
      invariant CountriesFrom(nullCountryArtists, i, CountryRun(artistCache, saved, updated, Finished), answers, names) ==
                CountriesFrom(nullCountryArtists, 0, init, answers, names)
    {
      var artistId := nullCountryArtists[i];
      var fetched := names(artistId);
      if NameSaves(artistId, artistCache, fetched) {
        saved := Some(ArtistLookup.ArtistNameFromCache(artistId, artistCache, fetched).1);
      }
      artistCache := ArtistLookup.ArtistNameFromCache(artistId, artistCache, fetched).1;
      if i >= |answers| {
        return CountryRun(artistCache, saved, updated, OutOfInput);
      }
      var country := Strip(answers[i]);
      if Lower(country) == "exit" {
        return CountryRun(artistCache, saved, updated, Quit);
      } else if country != "" {
        artistCache := artistCache[artistId := artistCache[artistId].(country := Present(country))];
        updated := true;
        saved := Some(artistCache);
      }
    }
    r := CountryRun(artistCache, saved, updated, Finished);
  }

  /** What one visit does: only the artist's name and country may change, and only as the answer says. */
  lemma VisitCountryStep(artistId: string, k: nat, st: CountryRun, answers: seq<string>,
                         names: string -> Option<Artist>)
    requires artistId in st.cache
    ensures var r := VisitCountry(artistId, k, st, answers, names);
      (forall a :: a in st.cache && a != artistId ==> r.cache[a] == st.cache[a]) &&
      r.cache[artistId].genres == st.cache[artistId].genres &&
      r.cache[artistId].country ==
        (if k < |answers| && GivesCountry(answers[k]) then Present(Strip(answers[k])) else st.cache[artistId].country) &&
      r.updated == (st.updated || (k < |answers| && GivesCountry(answers[k]))) &&
      r.ending == (if k >= |answers| then OutOfInput else if Lower(Strip(answers[k])) == "exit" then Quit else Finished) &&
      (r.saved == Some(r.cache) || (r.saved == st.saved && r.cache == st.cache))
  {
    var fetched := names(artistId);
    if fetched.Some? {
      ArtistLookup.ArtistNameKeepsRecord(artistId, st.cache, fetched.value);
    }
  }

  /** Every change is written at once: the cache is the one last written, or nothing changed and nothing was written. */
  predicate WrittenAtOnce(cache: Cache, st: CountryRun)
  {
    (st.saved == None && st.cache == cache) || st.saved == Some(st.cache)
  }

  lemma {:induction false} CountriesFromSaves(cache: Cache, ids: seq<string>, k: nat, st: CountryRun,
                                              answers: seq<string>, names: string -> Option<Artist>)
    requires k <= |ids| && forall i :: k <= i < |ids| ==> ids[i] in st.cache
    requires WrittenAtOnce(cache, st)
    ensures WrittenAtOnce(cache, CountriesFrom(ids, k, st, answers, names))
    decreases |ids| - k
  {
    if k < |ids| && st.ending == Finished {
      VisitCountryStep(ids[k], k, st, answers, names);
      CountriesFromSaves(cache, ids, k + 1, VisitCountry(ids[k], k, st, answers, names), answers, names);
    }
  }

  /** The run leaves the cache as last written, or unchanged and never written. */
  lemma CountrySaves(cache: Cache, ids: seq<string>, answers: seq<string>, names: string -> Option<Artist>)
    requires forall i :: 0 <= i < |ids| ==> ids[i] in cache
    ensures var r := CountryPass(cache, ids, answers, names);
      (r.saved == None && r.cache == cache) || r.saved == Some(r.cache)
  {
    CountriesFromSaves(cache, ids, 0, CountryRun(cache, None, false, Finished), answers, names);
  }

  /**
   * The cache `c` differs from `cache` only as the visits allow: genres are
   * kept, an artist not listed is untouched, and a country is kept or is
   * the stripped answer at the artist's own position.
   */
  ghost predicate CountriesEdited(cache: Cache, c: Cache, ids: seq<string>, answers: seq<string>)
  {
    c.Keys == cache.Keys &&
    forall a :: a in cache ==>
      c[a].genres == cache[a].genres &&
      (a !in ids ==> c[a] == cache[a]) &&
      (c[a].country == cache[a].country ||
       exists k :: 0 <= k < |ids| && k < |answers| && ids[k] == a && GivesCountry(answers[k]) &&
                   c[a].country == Present(Strip(answers[k])))
  }

  /** A change allowed at the `k`-th artist keeps the cache within what the visits allow. */
  lemma EditedStep(cache: Cache, c: Cache, c': Cache, ids: seq<string>, answers: seq<string>, k: nat)
    requires k < |ids| && CountriesEdited(cache, c, ids, answers) && c'.Keys == c.Keys
    requires forall a :: a in c && a != ids[k] ==> c'[a] == c[a]
    requires ids[k] in c && c'[ids[k]].genres == c[ids[k]].genres
    requires c'[ids[k]].country ==
      (if k < |answers| && GivesCountry(answers[k]) then Present(Strip(answers[k])) else c[ids[k]].country)
    ensures CountriesEdited(cache, c', ids, answers)
  {
    var id := ids[k];
    forall a | a in cache
      ensures c'[a].country == cache[a].country ||
              exists j :: 0 <= j < |ids| && j < |answers| && ids[j] == a && GivesCountry(answers[j]) &&
                          c'[a].country == Present(Strip(answers[j]))
    {
      if a == id && k < |answers| && GivesCountry(answers[k]) {
        assert c'[a].country == Present(Strip(answers[k]));
      }
    }
  }

  lemma {:induction false} CountriesFromEdits(cache: Cache, ids: seq<string>, k: nat, st: CountryRun,
                                              answers: seq<string>, names: string -> Option<Artist>)
    requires k <= |ids| && forall i :: 0 <= i < |ids| ==> ids[i] in cache
    requires CountriesEdited(cache, st.cache, ids, answers)
    ensures CountriesEdited(cache, CountriesFrom(ids, k, st, answers, names).cache, ids, answers)
    decreases |ids| - k
  {
    if k < |ids| && st.ending == Finished {
      VisitCountryStep(ids[k], k, st, answers, names);
      var st' := VisitCountry(ids[k], k, st, answers, names);
      EditedStep(cache, st.cache, st'.cache, ids, answers, k);
      CountriesFromEdits(cache, ids, k + 1, st', answers, names);
    }
  }

  /**
   * Only artists without a country are touched, and only their name and
   * country: every genre list is kept, and a country changes only to the
   * stripped, non-blank, non-`exit` answer given at the artist's turn.
   */
  lemma CountryEdits(cache: Cache, ids: seq<string>, answers: seq<string>, names: string -> Option<Artist>, a: string)
    requires forall i :: 0 <= i < |ids| ==> ids[i] in cache
    requires a in cache
    ensures var r := CountryPass(cache, ids, answers, names).cache;
      a in r && r[a].genres == cache[a].genres && (a !in ids ==> r[a] == cache[a]) &&
      (r[a].country == cache[a].country ||
       exists k :: 0 <= k < |ids| && k < |answers| && ids[k] == a && GivesCountry(answers[k]) &&
                   r[a].country == Present(Strip(answers[k])))
  {
    CountriesFromEdits(cache, ids, 0, CountryRun(cache, None, false, Finished), answers, names);
  }

  /** `updated` holds exactly when some artist's country changed. */
  ghost predicate UpdatedMeans(cache: Cache, st: CountryRun)
    requires st.cache.Keys == cache.Keys
  {
    st.updated <==> exists a :: a in cache && st.cache[a].country != cache[a].country
  }

  /** A visit keeps `updated` meaning what it says. */
  lemma UpdatedStep(cache: Cache, st: CountryRun, st': CountryRun, ids: seq<string>, answers: seq<string>, k: nat)
    requires k < |ids| && ids[k] in cache && cache[ids[k]].Country().None?
    requires st.cache.Keys == cache.Keys && st'.cache.Keys == cache.Keys && UpdatedMeans(cache, st)
    requires forall a :: a in cache ==> st.cache[a].country == cache[a].country || st.cache[a].country.Present?
    requires forall a :: a in cache && a != ids[k] ==> st'.cache[a] == st.cache[a]
    requires st'.cache[ids[k]].country ==
      (if k < |answers| && GivesCountry(answers[k]) then Present(Strip(answers[k])) else st.cache[ids[k]].country)
    requires st'.updated == (st.updated || (k < |answers| && GivesCountry(answers[k])))
    ensures UpdatedMeans(cache, st')
    ensures forall a :: a in cache ==> st'.cache[a].country == cache[a].country || st'.cache[a].country.Present?
  {
    var id := ids[k];
    assert !cache[id].country.Present?;
    if st.updated {
      var a :| a in cache && st.cache[a].country != cache[a].country;
      assert st'.cache[a].country != cache[a].country;
    }
    if st'.updated && !st.updated {
      assert st'.cache[id].country != cache[id].country;
    }
  }

  lemma {:induction false} CountriesFromUpdated(cache: Cache, ids: seq<string>, k: nat, st: CountryRun,
                                                answers: seq<string>, names: string -> Option<Artist>)
    requires k <= |ids| && forall i :: 0 <= i < |ids| ==> ids[i] in cache && cache[ids[i]].Country().None?
    requires st.cache.Keys == cache.Keys && UpdatedMeans(cache, st)
    requires forall a :: a in cache ==> st.cache[a].country == cache[a].country || st.cache[a].country.Present?
    ensures UpdatedMeans(cache, CountriesFrom(ids, k, st, answers, names))
    decreases |ids| - k
  {
    if k < |ids| && st.ending == Finished {
      VisitCountryStep(ids[k], k, st, answers, names);
      var st' := VisitCountry(ids[k], k, st, answers, names);
      UpdatedStep(cache, st, st', ids, answers, k);
      CountriesFromUpdated(cache, ids, k + 1, st', answers, names);
    }
  }

  /** The closing message: `updated` holds exactly when some artist's country changed. */
  lemma CountryUpdated(cache: Cache, ids: seq<string>, answers: seq<string>, names: string -> Option<Artist>)
    requires forall i :: 0 <= i < |ids| ==> ids[i] in cache && cache[ids[i]].Country().None?
    ensures var r := CountryPass(cache, ids, answers, names);
      r.updated <==> exists a :: a in cache && r.cache[a].country != cache[a].country
  {
    CountriesFromUpdated(cache, ids, 0, CountryRun(cache, None, false, Finished), answers, names);
  }

  /** An artist not listed from the `k`-th position on keeps its record. */
  lemma {:induction false} CountriesFromUntouched(ids: seq<string>, k: nat, st: CountryRun, answers: seq<string>,
                                                  names: string -> Option<Artist>, x: string)
    requires k <= |ids| && forall i :: k <= i < |ids| ==> ids[i] in st.cache && ids[i] != x
    requires x in st.cache
    ensures CountriesFrom(ids, k, st, answers, names).cache[x] == st.cache[x]
    decreases |ids| - k
  {
    if k < |ids| && st.ending == Finished {
      VisitCountryStep(ids[k], k, st, answers, names);
      CountriesFromUntouched(ids, k + 1, VisitCountry(ids[k], k, st, answers, names), answers, names, x);
    }
  }

  lemma {:induction false} CountriesFromExit(ids: seq<string>, m: nat, k: nat, st: CountryRun, answers: seq<string>,
                                             names: string -> Option<Artist>)
    requires m <= k < |ids| && forall i :: m <= i < |ids| ==> ids[i] in st.cache
    requires Distinct(ids) && st.ending == Finished
    requires k < |answers| && Lower(Strip(answers[k])) == "exit"
    ensures var r := CountriesFrom(ids, m, st, answers, names);
      r.ending == Quit && forall j :: k < j < |ids| ==> r.cache[ids[j]] == st.cache[ids[j]]
    decreases k - m
  {
    VisitCountryStep(ids[m], m, st, answers, names);
    var st' := VisitCountry(ids[m], m, st, answers, names);
    if Lower(Strip(answers[m])) == "exit" {
      assert CountriesFrom(ids, m, st, answers, names) == st';
    } else {
      CountriesFromExit(ids, m + 1, k, st', answers, names);
    }
  }

  /** `exit` at the `k`-th artist ends the run there: no later artist is touched. */
  lemma ExitStops(cache: Cache, ids: seq<string>, answers: seq<string>, names: string -> Option<Artist>, k: nat)
    requires forall i :: 0 <= i < |ids| ==> ids[i] in cache
    requires Distinct(ids) && k < |ids| && k < |answers| && Lower(Strip(answers[k])) == "exit"
    ensures var r := CountryPass(cache, ids, answers, names);
      r.ending == Quit && forall j :: k < j < |ids| ==> r.cache[ids[j]] == cache[ids[j]]
  {
    CountriesFromExit(ids, 0, k, CountryRun(cache, None, false, Finished), answers, names);
  }

  /** The `k`-th artist's visit sets its country, and the later visits leave it. */
  lemma AnsweredAt(ids: seq<string>, k: nat, st: CountryRun, answers: seq<string>, names: string -> Option<Artist>)
    requires k < |ids| && forall i :: k <= i < |ids| ==> ids[i] in st.cache
    requires Distinct(ids) && st.ending == Finished
    requires k < |answers| && Lower(Strip(answers[k])) != "exit"
    ensures CountriesFrom(ids, k, st, answers, names).cache[ids[k]].country ==
      if Strip(answers[k]) != "" then Present(Strip(answers[k])) else st.cache[ids[k]].country
  {
    VisitCountryStep(ids[k], k, st, answers, names);
    var st' := VisitCountry(ids[k], k, st, answers, names);
    CountriesFromUntouched(ids, k + 1, st', answers, names, ids[k]);
  }

  lemma {:induction false} CountriesFromAnswered(ids: seq<string>, m: nat, k: nat, st: CountryRun, answers: seq<string>,
                                                 names: string -> Option<Artist>)
    requires m <= k < |ids| && forall i :: m <= i < |ids| ==> ids[i] in st.cache
    requires Distinct(ids) && st.ending == Finished
    requires k < |answers| && forall j :: 0 <= j <= k ==> Lower(Strip(answers[j])) != "exit"
    ensures CountriesFrom(ids, m, st, answers, names).cache[ids[k]].country ==
      if Strip(answers[k]) != "" then Present(Strip(answers[k])) else st.cache[ids[k]].country
    decreases k - m, 1
  {
    if m == k {
      AnsweredAt(ids, k, st, answers, names);
    } else {
      AnsweredLater(ids, m, k, st, answers, names);
    }
  }

  /** Before the `k`-th artist, a visit leaves that artist's record and the run going. */
  lemma {:induction false} AnsweredLater(ids: seq<string>, m: nat, k: nat, st: CountryRun, answers: seq<string>,
                                         names: string -> Option<Artist>)
    requires m < k < |ids| && forall i :: m <= i < |ids| ==> ids[i] in st.cache
    requires Distinct(ids) && st.ending == Finished
    requires k < |answers| && forall j :: 0 <= j <= k ==> Lower(Strip(answers[j])) != "exit"
    ensures CountriesFrom(ids, m, st, answers, names).cache[ids[k]].country ==
      if Strip(answers[k]) != "" then Present(Strip(answers[k])) else st.cache[ids[k]].country
    decreases k - m, 0
  {
    var st' := VisitCountry(ids[m], m, st, answers, names);
    assert ids[m] != ids[k];
    VisitCountryStep(ids[m], m, st, answers, names);
    CountriesFromAnswered(ids, m + 1, k, st', answers, names);
  }

  /**
   * With no `exit` up to the `k`-th answer, the `k`-th artist's country is
   * that stripped answer, or what it was when the answer is blank.
   */
  lemma CountryAnswered(cache: Cache, ids: seq<string>, answers: seq<string>, names: string -> Option<Artist>, k: nat)
    requires forall i :: 0 <= i < |ids| ==> ids[i] in cache
    requires Distinct(ids) && k < |ids|
    requires k < |answers| && forall j :: 0 <= j <= k ==> Lower(Strip(answers[j])) != "exit"
    ensures var r := CountryPass(cache, ids, answers, names);
      r.cache[ids[k]].country == if Strip(answers[k]) != "" then Present(Strip(answers[k])) else cache[ids[k]].country
  {
    CountriesFromAnswered(ids, 0, k, CountryRun(cache, None, false, Finished), answers, names);
  }
}
