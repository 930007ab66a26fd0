/**
 * WikipediaAPI.py: the genres of an artist as the infobox of their
 * Wikipedia page gives them. `parse_complex_genres` reads a genre value by
 * the first of three strategies that yields something (the links inside
 * `{{hlist}}` templates, then the wikilinks, then the plain text split on
 * separators) and cleans the list up; `get_artist_genres` lower-cases it.
 *
 * The wikitext parser's output is an input here: a genre value comes with
 * its text, its templates (name and parameter values as text), the titles
 * of its wikilinks and its text with the markup stripped; a page comes
 * with its templates, each with the parsed value of its `genre` parameter
 * when it has one.
 */
module WikipediaApi {
  import opened Wrappers
  import opened Text
  import opened Lists
  import opened Sorting
  import opened WikiMarkup
  import opened GenreInput

  /** A template inside a genre value: its name and its parameter values as text. */
  datatype Template = Template(name: string, params: seq<string>)

  /** A parsed genre value. */
  datatype GenreValue = GenreValue(
    text: string,
    templates: seq<Template>,
    wikilinks: seq<string>,
    plain: string)

  /** A template of a page: its name, and its `genre` parameter's value when it has one. */
  datatype PageTemplate = PageTemplate(name: string, genre: Option<GenreValue>)

  /** The page the query answers with: none with revisions, or its templates. */
  datatype Page = NoRevisions | Revised(templates: seq<PageTemplate>)

  /** A template named `hlist`, up to white space and case. */
  predicate IsHList(t: Template)
  {
    Lower(Strip(t.name)) == "hlist"
  }

  /** The genre a link gives: its display text when it has one, else its target. */
  function LinkGenre(l: Link): string
  {
    if l.display != [] then Strip(l.display) else Strip(l.target)
  }

  /** The genres of one `hlist` parameter: its links once its references are removed. */
  function ParamGenres(value: string): seq<string>
  {
    var paramText := RemoveRefs(Strip(value));
    if paramText == [] then [] else Keys(Links(paramText), LinkGenre)
  }

  function TemplateGenres(t: Template): seq<string>
  {
    FlatMap(t.params, ParamGenres)
  }

  /** The first strategy: the links of every parameter of every `hlist` template. */
  function HListGenres(templates: seq<Template>): seq<string>
  {
    FlatMap(Filter(templates, IsHList), TemplateGenres)
  }

  /** The genre of one wikilink title: the part after the first `|` when it has one. */
  function TitleGenres(title: string): seq<string>
  {
    var linkText := Strip(title);
    if '|' in linkText then
      var parts := SplitOn(linkText, '|');
      if |parts| >= 2 then [Strip(parts[1])] else []
    else [Strip(linkText)]
  }

  /** The second strategy: one genre per wikilink. */
  function WikilinkGenres(titles: seq<string>): seq<string>
  {
    FlatMap(titles, TitleGenres)
  }

  /** A piece of the plain text, kept when it is longer than one character once stripped. */
  function PartGenres(part: string): seq<string>
  {
    var p := Strip(part);
    if p != [] && |p| > 1 then [p] else []
  }

  /** The third strategy: the plain text split on `,`, `;`, newline and `|`. */
  function TextGenres(plain: string): seq<string>
  {
    FlatMap(SplitAny(plain, TextSeparators), PartGenres)
  }

  /**
   * The genres before the clean-up: those of the first strategy that finds
   * any. The list is empty only when every strategy found none.
   */
  function CandidateGenres(v: GenreValue): (r: seq<string>)
    ensures r == [] <==> HListGenres(v.templates) == [] && WikilinkGenres(v.wikilinks) == [] && TextGenres(v.plain) == []
  {
    var genres := HListGenres(v.templates);
    if genres != [] then genres
    else
      var genres := WikilinkGenres(v.wikilinks);
      if genres != [] then genres else TextGenres(v.plain)
  }

  /** The words the clean-up drops, in lower case. */
  const Stopwords: seq<string> := ["and", "or", "the", "a", "an", "of", "in", "on", "at", "to", "for", "with", "by"]

  /** A stripped genre the clean-up keeps: longer than one character, and no stopword. */
  predicate Kept(g: string)
  {
    g != [] && |g| > 1 && Lower(g) !in Stopwords
  }

  function EligibleOne(g: string): seq<string>
  {
    var s := Strip(g);
    if Kept(s) then [s] else []
  }

  /** The stripped genres the clean-up keeps, repetitions included. */
  function Eligible(genres: seq<string>): seq<string>
  {
    FlatMap(genres, EligibleOne)
  }

  /** The clean-up: the first genre of every lower-case form among the eligible ones. */
  function Cleaned(genres: seq<string>): seq<string>
  {
    DedupBy(Eligible(genres), Lower)
  }

  /** `parse_complex_genres`: nothing for an empty value, else the clean candidates. */
  function ComplexGenres(v: GenreValue): (r: seq<string>)
    ensures v.text == [] ==> r == []
    ensures Distinct(Keys(r, Lower))
    ensures forall k :: 0 <= k < |r| ==> Kept(r[k]) && Strip(r[k]) == r[k]
  {
    if v.text == [] then []
    else
      CleanedKept(CandidateGenres(v));
      Cleaned(CandidateGenres(v))
  }

  /** Stripping twice is stripping once. */
  lemma StripIdempotent(s: string)
    ensures Strip(Strip(s)) == Strip(s)
  {
    if Strip(s) != [] {
      StripPadded([], Strip(s), []);
      assert [] + Strip(s) + [] == Strip(s);
    }
  }

  /** What the eligible list holds: the stripped genres that are kept. */
  lemma EligibleMember(genres: seq<string>, x: string)
    ensures x in Eligible(genres) <==> Kept(x) && exists i :: 0 <= i < |genres| && x == Strip(genres[i])
  {
    FlatMapMember(genres, EligibleOne, x);
  }

  /** Every genre kept is stripped, long enough and no stopword. */
  lemma CleanedKept(genres: seq<string>)
    ensures var r := Cleaned(genres);
      forall k :: 0 <= k < |r| ==> Kept(r[k]) && Strip(r[k]) == r[k]
  {
    var r := Cleaned(genres);
    forall k | 0 <= k < |r| ensures Kept(r[k]) && Strip(r[k]) == r[k] {
      EligibleMember(genres, r[k]);
      var i :| 0 <= i < |genres| && r[k] == Strip(genres[i]);
      StripIdempotent(genres[i]);
    }
  }

  /** Every genre kept is an input genre, stripped. */
  lemma CleanedFromInput(genres: seq<string>, k: nat)
    requires k < |Cleaned(genres)|
    ensures exists i :: 0 <= i < |genres| && Cleaned(genres)[k] == Strip(genres[i])
  {
    EligibleMember(genres, Cleaned(genres)[k]);
  }

  /** Every input genre that can be kept has its lower-case form among the genres kept. */
  lemma CleanedComplete(genres: seq<string>, i: nat)
    requires i < |genres| && Kept(Strip(genres[i]))
    ensures Lower(Strip(genres[i])) in Keys(Cleaned(genres), Lower)
  {
    var e := Eligible(genres);
    EligibleMember(genres, Strip(genres[i]));
    var j :| 0 <= j < |e| && e[j] == Strip(genres[i]);
  }

  /**
   * The clean-up keeps no two genres equal up to case, keeps the input's
   * order, and each genre kept is the first eligible one of its lower-case
   * form.
   */
  lemma CleanedFirst(genres: seq<string>)
    ensures Distinct(Keys(Cleaned(genres), Lower))
    ensures Subsequence(Cleaned(genres), Eligible(genres))
    ensures var r := Cleaned(genres); var e := Eligible(genres);
      forall k :: 0 <= k < |r| ==> exists i :: 0 <= i < |e| && e[i] == r[k] && FirstOfKey(e, Lower, i)
  {
    var r := Cleaned(genres);
    var e := Eligible(genres);
    DedupBySubsequence(e, Lower);
    forall k | 0 <= k < |r|
      ensures exists i :: 0 <= i < |e| && e[i] == r[k] && FirstOfKey(e, Lower, i)
    {
      DedupByOnlyFirst(e, Lower, k);
    }
  }

  /** Cleaning one more genre. */
  lemma CleanedStep(genres: seq<string>, i: nat)
    requires i < |genres|
    ensures var g := Strip(genres[i]);
      Cleaned(genres[..i + 1]) ==
        if Kept(g) && Lower(g) !in Keys(Cleaned(genres[..i]), Lower) then Cleaned(genres[..i]) + [g]
        else Cleaned(genres[..i])
  {
    var g := Strip(genres[i]);
    var e := Eligible(genres[..i]);
    FlatMapStep(genres, EligibleOne, i);
    if Kept(g) {
      assert Eligible(genres[..i + 1]) == e + [g];
      assert (e + [g])[..|e|] == e;
    } else {
      assert Eligible(genres[..i + 1]) == e;
    }
  }

  /** The clean-up loop, with the set of lower-case forms seen so far. */
  method CleanUp(genres: seq<string>) returns (cleaned: seq<string>)
    ensures cleaned == Cleaned(genres)
  {
    cleaned := [];
    var seen: set<string> := {};
    for i: nat := 0 to |genres|
      invariant cleaned == Cleaned(genres[..i])
      invariant seen == Elems(Keys(cleaned, Lower))
    {
      var genre := Strip(genres[i]);
      CleanedStep(genres, i);
      if genre != [] && |genre| > 1 && Lower(genre) !in seen {
        if Lower(genre) !in Stopwords {
          KeysSnoc(cleaned, genre, Lower);
          ElemsAppend(Keys(cleaned, Lower), [Lower(genre)]);
          cleaned := cleaned + [genre];
          seen := seen + {Lower(genre)};
        }
      }
    }
    assert genres[..|genres|] == genres;
  }

  /** The links of one `hlist` parameter, appended one by one. */
  method CollectParam(value: string) returns (genres: seq<string>)
    ensures genres == ParamGenres(value)
  {
    genres := [];
    var paramText := Strip(value);
    paramText := RemoveRefs(paramText);
    if paramText != [] {
      var linkMatches := Links(paramText);
      for k: nat := 0 to |linkMatches|
        invariant genres == Keys(linkMatches[..k], LinkGenre)
      {
        var m := linkMatches[k];
        assert linkMatches[..k + 1] == linkMatches[..k] + [m];
        KeysSnoc(linkMatches[..k], m, LinkGenre);
        if m.display != [] {
          genres := genres + [Strip(m.display)];
        } else {
          genres := genres + [Strip(m.target)];
        }
      }
      assert linkMatches[..|linkMatches|] == linkMatches;
    }
  }

  /** The loop over the parameters of one `hlist` template. */
  method CollectTemplate(t: Template) returns (genres: seq<string>)
    ensures genres == TemplateGenres(t)
  {
    var params := t.params;
    genres := [];
    for j: nat := 0 to |params|
      invariant genres == FlatMap(params[..j], ParamGenres)
    {
      var paramGenres := CollectParam(params[j]);
      FlatMapStep(params, ParamGenres, j);
      genres := genres + paramGenres;
    }
    assert params[..|params|] == params;
  }

  /** The loop over the `hlist` templates. */
  method CollectHList(templates: seq<Template>) returns (genres: seq<string>)
    ensures genres == HListGenres(templates)
  {
    var hlistTemplates := Filter(templates, IsHList);
    genres := [];
    for i: nat := 0 to |hlistTemplates|
      invariant genres == FlatMap(hlistTemplates[..i], TemplateGenres)
    {
      var templateGenres := CollectTemplate(hlistTemplates[i]);
      FlatMapStep(hlistTemplates, TemplateGenres, i);
      genres := genres + templateGenres;
    }
    assert hlistTemplates[..|hlistTemplates|] == hlistTemplates;
  }

  /** The loop over the wikilinks. */
  method CollectWikilinks(titles: seq<string>) returns (genres: seq<string>)
    ensures genres == WikilinkGenres(titles)
  {
    genres := [];
    for i: nat := 0 to |titles|
      invariant genres == FlatMap(titles[..i], TitleGenres)
    {
      var linkText := Strip(titles[i]);
      if '|' in linkText {
        var parts := SplitOn(linkText, '|');
        if |parts| >= 2 {
          genres := genres + [Strip(parts[1])];
        }
      } else {
        genres := genres + [Strip(linkText)];
      }
      FlatMapStep(titles, TitleGenres, i);
    }
    assert titles[..|titles|] == titles;
  }

  /** The loop over the pieces of the plain text. */
  method CollectText(plain: string) returns (genres: seq<string>)
    ensures genres == TextGenres(plain)
  {
    var parts := SplitAny(plain, TextSeparators);
    genres := [];
    for i: nat := 0 to |parts|
      invariant genres == FlatMap(parts[..i], PartGenres)
    {
      var part := Strip(parts[i]);
      if part != [] && |part| > 1 {
        genres := genres + [part];
      }
      FlatMapStep(parts, PartGenres, i);
    }
    assert parts[..|parts|] == parts;
  }

  /** `parse_complex_genres`. */
  method ParseComplexGenres(v: GenreValue) returns (cleaned: seq<string>)
    ensures cleaned == ComplexGenres(v)
  {
    if v.text == [] {
      return [];
    }
    var genres := CollectHList(v.templates);
    if genres == [] {
      genres := CollectWikilinks(v.wikilinks);
    }
    if genres == [] {
      genres := CollectText(v.plain);
    }
    cleaned := CleanUp(genres);
  }

  /** A later strategy's input is not looked at once an earlier one found genres. */
  lemma StrategyOrder(v: GenreValue, wikilinks: seq<string>, plain: string)
    ensures HListGenres(v.templates) != [] ==>
      CandidateGenres(v) == HListGenres(v.templates) &&
      CandidateGenres(v.(wikilinks := wikilinks, plain := plain)) == CandidateGenres(v)
    ensures HListGenres(v.templates) == [] && WikilinkGenres(v.wikilinks) != [] ==>
      CandidateGenres(v) == WikilinkGenres(v.wikilinks) &&
      CandidateGenres(v.(plain := plain)) == CandidateGenres(v)
  {
  }

  /**
   * An `hlist` parameter made of links followed by a reference gives the
   * display text of each link, or its target when it has none.
   */
  lemma ParamGenresOfLinks(ls: seq<Link>, attrs: string, body: string)
    requires forall k :: 0 <= k < |ls| ==> Readable(ls[k])
    requires '<' !in RenderAll(ls) && '>' !in attrs && NoClose(body)
    ensures ParamGenres(RenderAll(ls) + RefTag(attrs, body)) == Keys(ls, LinkGenre)
    ensures forall k :: 0 <= k < |ls| ==>
      ParamGenres(RenderAll(ls) + RefTag(attrs, body))[k] ==
        Strip(if ls[k].display != [] then ls[k].display else ls[k].target)
  {
    var s := RenderAll(ls) + RefTag(attrs, body);
    RenderedStripped(ls, attrs, body);
    assert RemoveRefs(s) == RenderAll(ls) by {
      RemoveRefsTag(RenderAll(ls), attrs, body, []);
      assert RenderAll(ls) + RefTag(attrs, body) + [] == s;
    }
    LinksRoundTrip(ls);
  }

  /** Links followed by a reference have no white space to strip. */
  lemma RenderedStripped(ls: seq<Link>, attrs: string, body: string)
    ensures Strip(RenderAll(ls) + RefTag(attrs, body)) == RenderAll(ls) + RefTag(attrs, body)
  {
    var s := RenderAll(ls) + RefTag(attrs, body);
    assert s[|s| - 1] == '>';
    assert s[0] == '[' || s[0] == '<' by {
      if ls != [] {
        assert RenderAll(ls)[0] == '[';
      }
    }
    StripPadded([], s, []);
    assert [] + s + [] == s;
  }

  /** A wikilink title gives exactly one genre. */
  lemma TitleGenresOne(title: string)
    ensures |TitleGenres(title)| == 1
  {
    var linkText := Strip(title);
    if '|' in linkText {
      JoinSplitOn(linkText, '|');
    }
  }

  /** A wikilink title with a `|` gives what stands between the first `|` and the next. */
  lemma TitleGenresAfterBar(title: string, a: string, b: string)
    requires Strip(title) == a + "|" + b && '|' !in a
    ensures TitleGenres(title) == [Strip(SplitOn(b, '|')[0])]
    ensures '|' !in b ==> TitleGenres(title) == [Strip(b)]
  {
    var linkText := Strip(title);
    assert linkText == a + ['|'] + b;
    assert '|' in linkText by {
      assert linkText[|a|] == '|';
    }
    SplitOnCons(a, b, '|');
    if '|' !in b {
      SplitOnNone(b, '|');
    }
  }

  /** The plain-text strategy keeps the stripped pieces longer than one character. */
  lemma TextGenresMember(plain: string, parts: seq<string>, x: string)
    requires parts == SplitAny(plain, TextSeparators)
    ensures x in TextGenres(plain) <==> |x| > 1 && exists k :: 0 <= k < |parts| && x == Strip(parts[k])
  {
    PartGenresMember(parts, x);
  }

  lemma PartGenresMember(parts: seq<string>, x: string)
    ensures x in FlatMap(parts, PartGenres) <==> |x| > 1 && exists k :: 0 <= k < |parts| && x == Strip(parts[k])
  {
    FlatMapMember(parts, PartGenres, x);
  }

  /** No genre of the plain-text strategy holds a separator. */
  lemma TextGenresSepFree(plain: string, x: string)
    requires x in TextGenres(plain)
    ensures SepFree(x, TextSeparators)
  {
    var parts := SplitAny(plain, TextSeparators);
    FlatMapMember(parts, PartGenres, x);
    var k :| 0 <= k < |parts| && x in PartGenres(parts[k]);
    PartGenresStripped(parts[k], x);
    SplitAnyPiece(plain, TextSeparators, k);
    StrippedSepFree(parts[k], TextSeparators);
  }

  lemma PartGenresStripped(part: string, x: string)
    requires x in PartGenres(part)
    ensures x == Strip(part)
  {
  }

  /** Stripping a piece without separators leaves none. */
  lemma StrippedSepFree(part: string, seps: set<char>)
    requires SepFree(part, seps)
    ensures SepFree(Strip(part), seps)
  {
    forall j | 0 <= j < |Strip(part)| ensures Strip(part)[j] !in seps {
      StripInside(part, j);
    }
  }

  /** Every character of the stripped text comes from the text. */
  lemma StripInside(s: string, j: nat)
    requires j < |Strip(s)|
    ensures Strip(s)[j] in s
  {
    var r := RStrip(s);
    assert Strip(s) == LStrip(r);
    assert Strip(s)[j] == r[|r| - |LStrip(r)| + j];
    assert r[|r| - |LStrip(r)| + j] == s[|r| - |LStrip(r)| + j];
  }

  /** Genres listed with a separator, stripped and longer than one character, are read back from the text. */
  lemma TextGenresOfJoin(ws: seq<string>, c: char)
    requires c in TextSeparators
    requires forall k :: 0 <= k < |ws| ==> SepFree(ws[k], TextSeparators) && |ws[k]| > 1 && Strip(ws[k]) == ws[k]
    ensures TextGenres(Join([c], ws)) == ws
  {
    if ws == [] {
      FlatMapOne("", PartGenres);
    } else {
      SplitAnyJoin(ws, TextSeparators, c);
      FlatMapSingles(ws, PartGenres);
    }
  }

  /** A template named `Infobox ...`, up to white space and case, with a `genre` parameter. */
  predicate InfoboxGenre(t: PageTemplate)
  {
    IsPrefix("infobox", Lower(Strip(t.name))) && t.genre.Some?
  }

  /** The genre value of the first infobox with one. */
  function FirstInfobox(templates: seq<PageTemplate>): (r: Option<GenreValue>)
    ensures r.None? <==> forall k :: 0 <= k < |templates| ==> !InfoboxGenre(templates[k])
  {
    var j := FirstWith(templates, 0, InfoboxGenre);
    if j == |templates| then None else templates[j].genre
  }

  /** A genre value found is that of an infobox with none before it. */
  lemma FirstInfoboxFirst(templates: seq<PageTemplate>)
    ensures var r := FirstInfobox(templates);
      r.Some? ==>
        exists j :: 0 <= j < |templates| && InfoboxGenre(templates[j]) && templates[j].genre == r &&
          forall k :: 0 <= k < j ==> !InfoboxGenre(templates[k])
  {
    var j := FirstWith(templates, 0, InfoboxGenre);
    if j < |templates| {
      NoneBefore(templates, j);
      assert InfoboxGenre(templates[j]) && templates[j].genre == FirstInfobox(templates);
    }
  }

  lemma NoneBefore(templates: seq<PageTemplate>, j: nat)
    requires j == FirstWith(templates, 0, InfoboxGenre)
    ensures forall k :: 0 <= k < j ==> !InfoboxGenre(templates[k])
  {
    forall k | 0 <= k < j
      ensures !InfoboxGenre(templates[k])
    {
    }
  }

  /** What `get_artist_genres` returns for the page it is given. */
  function ArtistGenres(page: Page): Option<seq<string>>
  {
    match page
      case NoRevisions => None
      case Revised(templates) =>
        match FirstInfobox(templates)
          case None => None
          case Some(v) => Some(Keys(ComplexGenres(v), Lower))
  }

  /** The page title an artist name is looked up under. */
  function PageTitle(artistName: string): (r: string)
    ensures |r| == |artistName| && ' ' !in r
  {
    ReplaceChar(artistName, ' ', '_')
  }

  /** The loop over a page's templates, stopping at the first infobox with a `genre` parameter. */
  method FindInfoboxGenre(templates: seq<PageTemplate>) returns (v: Option<GenreValue>)
    ensures v == FirstInfobox(templates)
  {
    for i: nat := 0 to |templates|
      invariant FirstWith(templates, i, InfoboxGenre) == FirstWith(templates, 0, InfoboxGenre)
    {
      var template := templates[i];
      if IsPrefix("infobox", Lower(Strip(template.name))) {
        if template.genre.Some? {
          return template.genre;
        }
      }
    }
    return None;
  }

  /** `get_artist_genres`: `fetch` answers the page query for a title. */
  method GetArtistGenres(artistName: string, fetch: string -> Page) returns (r: Option<seq<string>>)
    ensures r == ArtistGenres(fetch(PageTitle(artistName)))
  {
    var pageTitle := ReplaceChar(artistName, ' ', '_');
    var page := fetch(pageTitle);
    if page.NoRevisions? {
      return None;
    }
    var genreValue := FindInfoboxGenre(page.templates);
    if genreValue.None? {
      return None;
    }
    var genres := ParseComplexGenres(genreValue.value);
    return Some(Keys(genres, Lower));
  }

  /**
   * `get_artist_genres` gives `None` exactly when the page has no revisions
   * or no infobox with a genre; otherwise a list in lower case without
   * repetitions, each longer than one character and no stopword.
   */
  lemma ArtistGenresMeaning(page: Page)
    ensures var r := ArtistGenres(page);
      r.None? <==> page.NoRevisions? || forall k :: 0 <= k < |page.templates| ==> !InfoboxGenre(page.templates[k])
    ensures var r := ArtistGenres(page);
      r.Some? ==>
        Distinct(r.value) &&
        forall k :: 0 <= k < |r.value| ==>
          |r.value[k]| > 1 && r.value[k] !in Stopwords && Lower(r.value[k]) == r.value[k]
  {
    if ArtistGenres(page).Some? {
      var v := FirstInfobox(page.templates).value;
      var g := ComplexGenres(v);
      forall k | 0 <= k < |g| ensures Lower(Lower(g[k])) == Lower(g[k]) {
        LowerIdempotent(g[k]);
      }
    }
  }
}
