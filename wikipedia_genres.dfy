/**
 * WikipediaGenres.py and model/WikipediaGenres.py (the same code): read the
 * artists without genres, as id to name, from `artists_without_genres.json`
 * or, when that file is missing or not JSON, from the text file
 * `artists_without_genres.txt`; then look each name up in the encyclopedia
 * and keep the normalized genres as a custom-genres entry.
 *
 * The text is read with `re.findall(r"'([^']+)':\s*\[\s*#\s*(.+?)\s*\n", …)`.
 * `TextScan` spells that search out: at each position the one match the
 * regular-expression engine finds, with its greedy and lazy backtracking,
 * and the next search starting where the match ended.
 */
module TextScan {
  import opened Wrappers
  import opened Text

  /** The end of the white space starting at `i` (`\s*`, greedy). */
  function WsEnd(c: string, i: nat): (r: nat)
    requires i <= |c|
    ensures i <= r <= |c|
    decreases |c| - i
  {
    if i < |c| && IsSpace(c[i]) then WsEnd(c, i + 1) else i
  }

  /** The end of the run of non-quote characters starting at `i` (`[^']+`, greedy). */
  function QuoteEnd(c: string, i: nat): (r: nat)
    requires i <= |c|
    ensures i <= r <= |c|
    decreases |c| - i
  {
    if i < |c| && c[i] != '\'' then QuoteEnd(c, i + 1) else i
  }

  /** `\s*\n` matches at `x`: the white space starting there holds a newline. */
  predicate NlAhead(c: string, x: nat)
    decreases |c| - x
  {
    x < |c| && IsSpace(c[x]) && (c[x] == '\n' || NlAhead(c, x + 1))
  }

  /** Where `\s*\n` ends when it matches at `x`: after the last newline of that white space. */
  function NlEnd(c: string, x: nat): (r: nat)
    requires NlAhead(c, x)
    ensures x < r <= |c| && c[r - 1] == '\n'
    decreases |c| - x
  {
    if NlAhead(c, x + 1) then NlEnd(c, x + 1) else x + 1
  }

  /**
   * `(.+?)\s*\n` from `q`, the group taking `len` characters or more, none of
   * them a newline: the end of the group and the end of the match.
   */
  function Lazy(c: string, q: nat, len: nat): (r: Option<(nat, nat)>)
    requires len >= 1
    ensures r.Some? ==> q + len <= r.value.0 < r.value.1 <= |c|
    decreases |c| - (q + len)
  {
    if q + len >= |c| || c[q + len - 1] == '\n' then None
    else if NlAhead(c, q + len) then Some((q + len, NlEnd(c, q + len)))
    else Lazy(c, q, len + 1)
  }

  /**
   * `\s*(.+?)\s*\n` after the `#` at `a - 1`: the group first starts at `q`,
   * the end of the white space, and `\s*` gives back one character at a
   * time when no length of the group fits.
   */
  function Starts(c: string, a: nat, q: nat): (r: Option<(nat, nat, nat)>)
    requires a <= q
    ensures r.Some? ==> a <= r.value.0 < r.value.1 < r.value.2 <= |c|
    decreases q - a
  {
    match Lazy(c, q, 1)
      case Some(m) => Some((q, m.0, m.1))
      case None => if q == a then None else Starts(c, a, q - 1)
  }

  /** Where the two groups of a match lie: `c[idStart..idEnd]` and `c[nameStart..nameEnd]`. */
  datatype Span = Span(idStart: nat, idEnd: nat, nameStart: nat, nameEnd: nat)

  /** One match: its groups and the position after it. */
  datatype Match = Match(groups: Span, end: nat)

  /** The match starting exactly at `p`, if the pattern matches there. */
  function MatchAt(c: string, p: nat): (r: Option<Match>)
    ensures r.Some? ==> p < r.value.end <= |c|
  {
    if !(p < |c| && c[p] == '\'') then None
    else
      var j := QuoteEnd(c, p + 1);
      if j == p + 1 || j + 1 >= |c| || c[j + 1] != ':' then None
      else
        var k := WsEnd(c, j + 2);
        if k >= |c| || c[k] != '[' then None
        else
          var m := WsEnd(c, k + 1);
          if m >= |c| || c[m] != '#' then None
          else
            match Starts(c, m + 1, WsEnd(c, m + 1))
              case None => None
              case Some(s) => Some(Match(Span(p + 1, j, s.0, s.1), s.2))
  }

  /** The scan of `re.findall` from `p`: matches left to right, each search resuming where the last match ended. */
  function Spans(c: string, p: nat): seq<Span>
    decreases |c| - p, 1
  {
    if p >= |c| then []
    else if c[p] != '\'' then Spans(c, p + 1)
    else AfterQuote(c, p)
  }

  /** The scan at a quote: the match starting there, or the search moving on one position. */
  function AfterQuote(c: string, p: nat): seq<Span>
    requires p < |c|
    decreases |c| - p, 0
  {
    match MatchAt(c, p)
      case Some(m) => [m.groups] + Spans(c, m.end)
      case None => Spans(c, p + 1)
  }

  /** The text between two positions, empty when they are not in order within `c`. */
  function Cut(c: string, a: nat, b: nat): string
  {
    if a <= b <= |c| then c[a..b] else []
  }

  /** The groups of each match, as strings. */
  function Groups(c: string, spans: seq<Span>): (r: seq<(string, string)>)
    ensures |r| == |spans|
    ensures forall k :: 0 <= k < |spans| ==>
      r[k] == (Cut(c, spans[k].idStart, spans[k].idEnd), Cut(c, spans[k].nameStart, spans[k].nameEnd))
  {
    seq(|spans|, k requires 0 <= k < |spans| =>
      (Cut(c, spans[k].idStart, spans[k].idEnd), Cut(c, spans[k].nameStart, spans[k].nameEnd)))
  }

  /** `re.findall(pattern, c)` from `p`: the two groups of every match. */
  function FindAll(c: string, p: nat): seq<(string, string)>
  {
    Groups(c, Spans(c, p))
  }

  // ----- facts about the scan on known text -----

  lemma {:induction false} WsEndAt(c: string, i: nat, j: nat)
    requires i <= j < |c| && !IsSpace(c[j])
    requires forall x :: i <= x < j ==> IsSpace(c[x])
    ensures WsEnd(c, i) == j
    decreases j - i
  {
    if i < j {
      WsEndAt(c, i + 1, j);
    }
  }

  lemma {:induction false} QuoteEndAt(c: string, i: nat, j: nat)
    requires i <= j < |c| && c[j] == '\''
    requires forall x :: i <= x < j ==> c[x] != '\''
    ensures QuoteEnd(c, i) == j
    decreases j - i
  {
    if i < j {
      QuoteEndAt(c, i + 1, j);
    }
  }

  /** White space reaching a newline at `y` lets `\s*\n` match at `x`. */
  lemma {:induction false} NlAheadAt(c: string, x: nat, y: nat)
    requires x <= y < |c| && c[y] == '\n'
    requires forall z :: x <= z < y ==> IsSpace(c[z])
    ensures NlAhead(c, x)
    decreases y - x
  {
    if x < y {
      NlAheadAt(c, x + 1, y);
    }
  }

  /** No newline before a non-space character at `y`: `\s*\n` cannot match at `x`. */
  lemma {:induction false} NoNlAhead(c: string, x: nat, y: nat)
    requires x <= y < |c| && !IsSpace(c[y])
    requires forall z :: x <= z < y ==> c[z] != '\n'
    ensures !NlAhead(c, x)
    decreases y - x
  {
    if x < y && IsSpace(c[x]) {
      NoNlAhead(c, x + 1, y);
    }
  }

  /** White space from `x` whose last newline is at `t - 1` ends the match at `t`. */
  lemma {:induction false} NlEndAt(c: string, x: nat, t: nat)
    requires x < t <= |c| && c[t - 1] == '\n'
    requires forall z :: x <= z < t ==> IsSpace(c[z])
    requires !NlAhead(c, t)
    ensures NlAhead(c, x) && NlEnd(c, x) == t
    decreases t - x
  {
    NlAheadAt(c, x, t - 1);
    if x + 1 < t {
      NlEndAt(c, x + 1, t);
    }
  }

  /** The group grows past every length after which no newline follows. */
  lemma {:induction false} LazyFrom(c: string, q: nat, len: nat, n: nat)
    requires 1 <= len <= n && q + n < |c|
    requires forall z :: q <= z < q + n ==> c[z] != '\n'
    requires forall z :: q + len <= z < q + n ==> !NlAhead(c, z)
    ensures Lazy(c, q, len) == Lazy(c, q, n)
    decreases n - len
  {
    if len < n {
      LazyFrom(c, q, len + 1, n);
    }
  }

  /** The match at `p` once each of its parts has been located. */
  lemma MatchAtParts(c: string, p: nat, j: nat, n: nat, t: nat)
    requires p < |c| && c[p] == '\'' && p + 1 < j <= |c| && QuoteEnd(c, p + 1) == j
    requires j + 8 < |c| && c[j + 1] == ':' && WsEnd(c, j + 2) == j + 3 && c[j + 3] == '['
    requires WsEnd(c, j + 4) == j + 6 && c[j + 6] == '#' && WsEnd(c, j + 7) == j + 8
    requires n >= 1 && Lazy(c, j + 8, 1) == Some((j + 8 + n, t))
    ensures MatchAt(c, p) == Some(Match(Span(p + 1, j, j + 8, j + 8 + n), t))
  {
    assert Starts(c, j + 7, j + 8) == Some((j + 8, j + 8 + n, t));
  }

  /** Positions holding no quote start no match. */
  lemma {:induction false} SkipNoQuote(c: string, p: nat, q: nat)
    requires p <= q <= |c|
    requires forall x :: p <= x < q ==> c[x] != '\''
    ensures Spans(c, p) == Spans(c, q)
    decreases q - p
  {
    if p < q {
      SkipNoQuote(c, p + 1, q);
    }
  }
  /** A scan taking one match at each of the offsets `offs`, in turn, finds their groups `gs`. */
  lemma {:induction false} ScanChain<T>(f: nat -> seq<T>, offs: seq<nat>, gs: seq<T>, k: nat)
    requires |offs| == |gs| + 1 && k <= |gs|
    requires forall x :: k <= x < |gs| ==> f(offs[x]) == [gs[x]] + f(offs[x + 1])
    ensures f(offs[k]) == gs[k..] + f(offs[|gs|])
    decreases |gs| - k
  {
    if k < |gs| {
      ScanChain(f, offs, gs, k + 1);
      assert gs[k..] == [gs[k]] + gs[k + 1..];
    }
  }

  /** A match at `p`: the scan takes its groups and resumes where it ended. */
  lemma SpansMatch(c: string, p: nat, g: Span, t: nat)
    requires p < |c| && MatchAt(c, p) == Some(Match(g, t))
    ensures Spans(c, p) == [g] + Spans(c, t)
  {
  }

  /** A stretch the scan takes as one match, preceded by `before` and followed by `after` positions holding no quote. */
  lemma SpansOver(c: string, p: nat, before: nat, g: Span, t: nat, after: nat)
    requires p + before <= t && t + after <= |c|
    requires Spans(c, p + before) == [g] + Spans(c, t)
    requires forall x :: p <= x < p + before ==> c[x] != '\''
    requires forall x :: t <= x < t + after ==> c[x] != '\''
    ensures Spans(c, p) == [g] + Spans(c, t + after)
  {
    assert Spans(c, p) == Spans(c, p + before) by { SkipNoQuote(c, p, p + before); }
    assert Spans(c, t) == Spans(c, t + after) by { SkipNoQuote(c, t, t + after); }
  }

}

/**
 * The reading of the artists (`extract_artist_names_from_json`,
 * `extract_artist_names_from_file`), the encyclopedia lookup loop
 * (`get_genres_for_artists`) and the summary `main` prints.
 */
module WikipediaGenres {
  import opened Wrappers
  import opened Text
  import opened Lists
  import opened Records
  import opened GenreNormalize
  import opened Sorting
  import opened GenrePipeline
  import opened TextScan
  import opened CacheRefresh
  import opened EmptyCacheListing

  // ----- the text file read back -----

  /** Each match with its name stripped: the assignments `artists[artist_id] = artist_name.strip()` in turn. */
  function Stripped(matches: seq<(string, string)>): (r: seq<(string, string)>)
    ensures |r| == |matches|
    ensures forall i :: 0 <= i < |matches| ==> r[i] == (matches[i].0, Strip(matches[i].1))
  {
    seq(|matches|, i requires 0 <= i < |matches| => (matches[i].0, Strip(matches[i].1)))
  }

  /** The artists read from the matches. */
  function NamesFrom(matches: seq<(string, string)>): map<string, string>
  {
    Assigned(Stripped(matches))
  }

  /** The loop of `extract_artist_names_from_file` over the matches found. */
  method NamesOf(matches: seq<(string, string)>) returns (artists: map<string, string>)
    ensures artists == NamesFrom(matches)
  {
    ghost var pairs := Stripped(matches);
    artists := map[];
    for i: nat := 0 to |matches|
      invariant artists == Assigned(pairs[..i])
    {
      AssignedStep(pairs, i);
      var (artistId, artistName) := matches[i];
      artists := artists[artistId := Strip(artistName)];
    }
    assert pairs[..|matches|] == pairs;
  }

  /** `extract_artist_names_from_file`, given the file's content. */
  method ExtractNamesFromText(content: string) returns (artists: map<string, string>)
    ensures artists == NamesFrom(FindAll(content, 0))
  {
    artists := NamesOf(FindAll(content, 0));
  }

  /** An artist the text file carries through: an id with no quote, a one-line name with no white space at its ends. */
  predicate Readable(id: string, name: string)
  {
    id != [] && (forall x :: 0 <= x < |id| ==> id[x] != '\'') &&
    name != [] && (forall x :: 0 <= x < |name| ==> name[x] != '\n') &&
    !IsSpace(name[0]) && !IsSpace(name[|name| - 1])
  }

  /** `\s*(.+?)\s*\n` on a one-line name followed by the entry's closing lines: the group is the name. */
  lemma LazyEntry(c: string, q: nat, n: nat)
    requires 1 <= n && q + n + 14 < |c|
    requires forall z :: q <= z < q + n ==> c[z] != '\n'
    requires !IsSpace(c[q + n - 1])
    requires forall z :: q + n <= z < q + n + 10 ==> IsSpace(c[z])
    requires c[q + n + 9] == '\n'
    requires forall z :: q + n + 10 <= z < q + n + 14 ==> c[z] != '\n'
    requires !IsSpace(c[q + n + 14])
    ensures Lazy(c, q, 1) == Some((q + n, q + n + 10))
  {
    var t := q + n + 10;
    forall z | q + 1 <= z < q + n ensures !NlAhead(c, z) {
      NoNlAhead(c, z, q + n - 1);
    }
    NoNlAhead(c, t, t + 4);
    NlEndAt(c, q + n, t);
    LazyFrom(c, q, 1, n);
  }

  /** `c[a..b] == x + y` splits into its two slices. */
  lemma SliceSplit(c: string, a: nat, x: string, y: string)
    requires a + |x| + |y| <= |c| && c[a..a + |x| + |y|] == x + y
    ensures c[a..a + |x|] == x && c[a + |x|..a + |x| + |y|] == y
  {
    assert c[a..a + |x|] == c[a..a + |x| + |y|][..|x|];
    assert c[a + |x|..a + |x| + |y|] == c[a..a + |x| + |y|][|x|..];
  }

  const EntryHead := "    '"
  const EntryMid := "': [  # "
  const EntryTail := "\n        \n    ],\n"

  /** An entry of the text file, as its five slices, starts at `p0`. */
  predicate EntryAt(c: string, p0: nat, id: string, name: string)
  {
    var j := p0 + 5 + |id|;
    var q := j + 8;
    q + |name| + 17 <= |c| &&
    c[p0..p0 + 5] == EntryHead && c[p0 + 5..j] == id && c[j..q] == EntryMid &&
    c[q..q + |name|] == name && c[q + |name|..q + |name| + 17] == EntryTail
  }

  lemma EntryTextSplit(r: Row)
    ensures EntryText(r) == EntryHead + r.id + EntryMid + r.name + EntryTail
  {
  }

  /** The entry's text where it is written. */
  lemma EntryAtText(c: string, p0: nat, r: Row)
    requires p0 + |EntryText(r)| <= |c| && c[p0..p0 + |EntryText(r)|] == EntryText(r)
    ensures EntryAt(c, p0, r.id, r.name)
  {
    EntryTextSplit(r);
    var a := EntryHead + r.id + EntryMid;
    SliceSplit(c, p0, a + r.name, EntryTail);
    SliceSplit(c, p0, a, r.name);
    SliceSplit(c, p0, EntryHead + r.id, EntryMid);
    SliceSplit(c, p0, EntryHead, r.id);
  }

  /** The characters the scan looks at before the name: the quotes around an id of `i` characters, and the text between id and name. */
  predicate HeadScannable(c: string, p0: nat, i: nat)
  {
    var j := p0 + 5 + i;
    j + 8 <= |c| && i >= 1 &&
    (forall x :: p0 <= x < p0 + 4 ==> c[x] != '\'') && c[p0 + 4] == '\'' &&
    (forall x :: p0 + 5 <= x < j ==> c[x] != '\'') && c[j] == '\'' &&
    c[j + 1] == ':' && c[j + 2] == ' ' && c[j + 3] == '[' && c[j + 4] == ' ' && c[j + 5] == ' ' &&
    c[j + 6] == '#' && c[j + 7] == ' '
  }

  /** The characters the scan looks at in a name of `n` characters at `q`: one line, no white space at its ends. */
  predicate NameScannable(c: string, q: nat, n: nat)
  {
    q + n <= |c| && n >= 1 && (forall z :: q <= z < q + n ==> c[z] != '\n') && !IsSpace(c[q]) && !IsSpace(c[q + n - 1])
  }

  /** The characters the scan looks at after the name, at `u`: white space up to a newline, then the closing line. */
  predicate TailScannable(c: string, u: nat)
  {
    u + 17 <= |c| &&
    (forall z :: u <= z < u + 10 ==> IsSpace(c[z])) && c[u + 9] == '\n' &&
    (forall z :: u + 10 <= z < u + 14 ==> c[z] != '\n') && !IsSpace(c[u + 14]) &&
    (forall z :: u + 10 <= z < u + 17 ==> c[z] != '\'')
  }

  /**
   * The characters the scan looks at in an entry written at `p0`, for an id
   * of `i` characters and a name of `n`.
   */
  predicate Scannable(c: string, p0: nat, i: nat, n: nat)
  {
    HeadScannable(c, p0, i) && NameScannable(c, p0 + 13 + i, n) && TailScannable(c, p0 + 13 + i + n)
  }

  lemma HeadFacts(c: string, p0: nat, id: string)
    requires p0 + 13 + |id| <= |c| && id != [] && forall x :: 0 <= x < |id| ==> id[x] != '\''
    requires c[p0..p0 + 5] == EntryHead && c[p0 + 5..p0 + 5 + |id|] == id && c[p0 + 5 + |id|..p0 + 13 + |id|] == EntryMid
    ensures HeadScannable(c, p0, |id|)
  {
    var j := p0 + 5 + |id|;
    assert c[p0 + 4] == c[p0..p0 + 5][4];
    forall x | p0 <= x < p0 + 4 ensures c[x] != '\'' {
      assert c[x] == c[p0..p0 + 5][x - p0];
    }
    forall x | p0 + 5 <= x < j ensures c[x] != '\'' {
      assert c[x] == c[p0 + 5..j][x - (p0 + 5)];
    }
    forall x | 0 <= x < 8 ensures c[j + x] == EntryMid[x] {
      assert c[j + x] == c[j..j + 8][x];
    }
  }

  lemma NameFacts(c: string, q: nat, name: string)
    requires q + |name| <= |c| && c[q..q + |name|] == name
    requires name != [] && (forall x :: 0 <= x < |name| ==> name[x] != '\n')
    requires !IsSpace(name[0]) && !IsSpace(name[|name| - 1])
    ensures NameScannable(c, q, |name|)
  {
    assert c[q] == c[q..q + |name|][0];
    assert c[q + |name| - 1] == c[q..q + |name|][|name| - 1];
    forall z | q <= z < q + |name| ensures c[z] != '\n' {
      assert c[z] == c[q..q + |name|][z - q];
    }
  }

  lemma TailFacts(c: string, u: nat)
    requires u + 17 <= |c| && c[u..u + 17] == EntryTail
    ensures TailScannable(c, u)
  {
    forall x | 0 <= x < 17 ensures c[u + x] == EntryTail[x] {
      assert c[u + x] == c[u..u + 17][x];
    }
    forall z | u <= z < u + 17 ensures c[z] == EntryTail[z - u] {
      assert c[u + (z - u)] == EntryTail[z - u];
    }
  }

  /** Where the groups of the entry of `r` written at `p0` lie. */
  function EntrySpan(p0: nat, r: Row): Span
  {
    Span(p0 + 5, p0 + 5 + |r.id|, p0 + 13 + |r.id|, p0 + 13 + |r.id| + |r.name|)
  }

  /** The length of an entry: 30 characters besides the id and the name. */
  function EntryLen(r: Row): nat
  {
    30 + |r.id| + |r.name|
  }

  /** The characters the scan needs, in the five slices of an entry of a readable row. */
  lemma EntryScannable(c: string, p0: nat, r: Row)
    requires Readable(r.id, r.name) && EntryAt(c, p0, r.id, r.name)
    ensures Scannable(c, p0, |r.id|, |r.name|)
  {
    var j := p0 + 5 + |r.id|;
    HeadFacts(c, p0, r.id);
    NameFacts(c, j + 8, r.name);
    TailFacts(c, j + 8 + |r.name|);
  }

  /** An entry of a readable row, where it is written: the characters the scan needs, and its two groups. */
  lemma EntryFacts(c: string, p0: nat, r: Row)
    requires Readable(r.id, r.name)
    requires p0 + |EntryText(r)| <= |c| && c[p0..p0 + |EntryText(r)|] == EntryText(r)
    ensures |EntryText(r)| == EntryLen(r)
    ensures Scannable(c, p0, |r.id|, |r.name|)
    ensures Cut(c, EntrySpan(p0, r).idStart, EntrySpan(p0, r).idEnd) == r.id
    ensures Cut(c, EntrySpan(p0, r).nameStart, EntrySpan(p0, r).nameEnd) == r.name
  {
    EntryAtText(c, p0, r);
    EntryTextSplit(r);
    EntryScannable(c, p0, r);
  }

  /** The parts of the pattern, located in an entry written at `p0`. */
  lemma EntryParts(c: string, p0: nat, i: nat, n: nat)
    requires Scannable(c, p0, i, n)
    ensures var j := p0 + 5 + i;
      QuoteEnd(c, p0 + 5) == j && WsEnd(c, j + 2) == j + 3 && WsEnd(c, j + 4) == j + 6 &&
      WsEnd(c, j + 7) == j + 8 && Lazy(c, j + 8, 1) == Some((j + 8 + n, j + 18 + n))
  {
    var j := p0 + 5 + i;
    QuoteEndAt(c, p0 + 5, j);
    WsEndAt(c, j + 2, j + 3);
    WsEndAt(c, j + 4, j + 6);
    WsEndAt(c, j + 7, j + 8);
    LazyEntry(c, j + 8, n);
  }

  /** The pattern, its parts located, matches at the quote at `p` and the scan resumes after it. */
  lemma EntryMatch(c: string, p: nat, j: nat, n: nat)
    requires p < |c| && c[p] == '\'' && p + 1 < j && j + 18 + n <= |c| && n >= 1
    requires c[j + 1] == ':' && c[j + 3] == '[' && c[j + 6] == '#'
    requires QuoteEnd(c, p + 1) == j && WsEnd(c, j + 2) == j + 3 && WsEnd(c, j + 4) == j + 6
    requires WsEnd(c, j + 7) == j + 8 && Lazy(c, j + 8, 1) == Some((j + 8 + n, j + 18 + n))
    ensures Spans(c, p) == [Span(p + 1, j, j + 8, j + 8 + n)] + Spans(c, j + 18 + n)
  {
    MatchAtParts(c, p, j, n, j + 18 + n);
    SpansMatch(c, p, Span(p + 1, j, j + 8, j + 8 + n), j + 18 + n);
  }

  /** The scan over an entry finds its groups and resumes right after it. */
  lemma ScanEntry(c: string, p0: nat, i: nat, n: nat)
    requires Scannable(c, p0, i, n)
    ensures Spans(c, p0) == [Span(p0 + 5, p0 + 5 + i, p0 + 13 + i, p0 + 13 + i + n)] + Spans(c, p0 + 30 + i + n)
  {
    var j := p0 + 5 + i;
    EntryParts(c, p0, i, n);
    EntryMatch(c, p0 + 4, j, n);
    SpansOver(c, p0, 4, Span(p0 + 5, j, j + 8, j + 8 + n), j + 18 + n, 7);
  }

  // ----- the text file: written by the listing, read back here -----

  /** Where the `k`-th entry of `rows` starts in the text. */
  function Offset(rows: seq<Row>, k: nat): nat
    requires k <= |rows|
  {
    if k == 0 then 0 else Offset(rows, k - 1) + EntryLen(rows[k - 1])
  }

  lemma EntryTextLen(r: Row)
    ensures |EntryText(r)| == EntryLen(r)
  {
  }

  lemma {:induction false} OffsetText(rows: seq<Row>, k: nat)
    requires k <= |rows|
    ensures |TextOf(rows[..k])| == Offset(rows, k)
  {
    if k > 0 {
      OffsetText(rows, k - 1);
      FlatMapStep(rows, EntryText, k - 1);
      EntryTextLen(rows[k - 1]);
    }
  }

  lemma SliceMiddle(a: string, b: string, d: string)
    ensures (a + b + d)[|a|..|a| + |b|] == b
  {
  }

  /** The `k`-th entry, where the text holds it. */
  lemma RowAt(rows: seq<Row>, k: nat)
    requires k < |rows|
    ensures var c := TextOf(rows); var p := Offset(rows, k);
      p + |EntryText(rows[k])| <= |c| && c[p..p + |EntryText(rows[k])|] == EntryText(rows[k])
  {
    var front, back := rows[..k], rows[k + 1..];
    assert rows == front + [rows[k]] + back;
    FlatMapAppend(front + [rows[k]], back, EntryText);
    FlatMapAppend(front, [rows[k]], EntryText);
    FlatMapOne(rows[k], EntryText);
    OffsetText(rows, k);
    SliceMiddle(TextOf(front), EntryText(rows[k]), TextOf(back));
  }

  /** Every entry of a written list of readable rows holds what the scan needs. */
  lemma RowsScannable(rows: seq<Row>)
    requires forall k :: 0 <= k < |rows| ==> Readable(rows[k].id, rows[k].name)
    ensures forall k :: 0 <= k < |rows| ==> Scannable(TextOf(rows), Offset(rows, k), |rows[k].id|, |rows[k].name|)
    ensures forall k :: 0 <= k < |rows| ==>
      var s := EntrySpan(Offset(rows, k), rows[k]);
      Cut(TextOf(rows), s.idStart, s.idEnd) == rows[k].id && Cut(TextOf(rows), s.nameStart, s.nameEnd) == rows[k].name
  {
    forall k | 0 <= k < |rows|
      ensures Scannable(TextOf(rows), Offset(rows, k), |rows[k].id|, |rows[k].name|)
      ensures var s := EntrySpan(Offset(rows, k), rows[k]);
        Cut(TextOf(rows), s.idStart, s.idEnd) == rows[k].id && Cut(TextOf(rows), s.nameStart, s.nameEnd) == rows[k].name
    {
      RowAt(rows, k);
      EntryFacts(TextOf(rows), Offset(rows, k), rows[k]);
    }
  }

  /** Where the groups of the entries of `rows` lie. */
  function RowSpans(rows: seq<Row>): (r: seq<Span>)
    ensures |r| == |rows|
    ensures forall k :: 0 <= k < |rows| ==> r[k] == EntrySpan(Offset(rows, k), rows[k])
  {
    seq(|rows|, k requires 0 <= k < |rows| => EntrySpan(Offset(rows, k), rows[k]))
  }

  /** Where each entry of `rows` starts, and where the text ends. */
  function Offsets(rows: seq<Row>): (r: seq<nat>)
    ensures |r| == |rows| + 1
    ensures forall k :: 0 <= k <= |rows| ==> r[k] == Offset(rows, k)
  {
    seq(|rows| + 1, k requires 0 <= k <= |rows| => Offset(rows, k))
  }

  /** The scan at the `x`-th entry takes that entry and resumes at the next. */
  lemma ScanStep(c: string, rows: seq<Row>, x: nat)
    requires x < |rows| && Scannable(c, Offset(rows, x), |rows[x].id|, |rows[x].name|)
    ensures Spans(c, Offset(rows, x)) == [EntrySpan(Offset(rows, x), rows[x])] + Spans(c, Offset(rows, x + 1))
  {
    ScanEntry(c, Offset(rows, x), |rows[x].id|, |rows[x].name|);
  }

  /** In a written file, the scan at the `x`-th entry of a readable row takes that entry and resumes at the next. */
  lemma RowStep(rows: seq<Row>, x: nat)
    requires x < |rows| && Readable(rows[x].id, rows[x].name)
    ensures var c := TextOf(rows);
      Spans(c, Offset(rows, x)) == [EntrySpan(Offset(rows, x), rows[x])] + Spans(c, Offset(rows, x + 1))
  {
    RowAt(rows, x);
    EntryFacts(TextOf(rows), Offset(rows, x), rows[x]);
    ScanStep(TextOf(rows), rows, x);
  }

  /** The scan of a whole written file of readable rows finds the entries' groups, in order. */
  lemma ScanRows(rows: seq<Row>)
    requires forall k :: 0 <= k < |rows| ==> Readable(rows[k].id, rows[k].name)
    ensures Spans(TextOf(rows), 0) == RowSpans(rows)
  {
    var c := TextOf(rows);
    var offs, spans := Offsets(rows), RowSpans(rows);
    forall x | 0 <= x < |rows| ensures Spans(c, offs[x]) == [spans[x]] + Spans(c, offs[x + 1]) {
      RowStep(rows, x);
    }
    ScanChain(p => Spans(c, p), offs, spans, 0);
    OffsetText(rows, |rows|);
    assert rows[..|rows|] == rows;
    assert Spans(c, offs[|rows|]) == [];
    assert spans[0..] == spans;
  }

  /** What the listing writes for each row, as the reader's id and name. */
  function Pairs(rows: seq<Row>): (r: seq<(string, string)>)
    ensures |r| == |rows|
    ensures forall k :: 0 <= k < |rows| ==> r[k] == (rows[k].id, rows[k].name)
  {
    seq(|rows|, k requires 0 <= k < |rows| => (rows[k].id, rows[k].name))
  }

  /** Reading a whole written file of readable rows finds every row, in order. */
  lemma TextRoundTrip(rows: seq<Row>)
    requires forall k :: 0 <= k < |rows| ==> Readable(rows[k].id, rows[k].name)
    ensures FindAll(TextOf(rows), 0) == Pairs(rows)
  {
    ScanRows(rows);
    RowsScannable(rows);
  }

  /** A readable name is kept whole by `strip()`. */
  lemma StripReadable(id: string, name: string)
    requires Readable(id, name)
    ensures Strip(name) == name
  {
    StripPadded("", name, "");
    assert "" + name + "" == name;
  }

  /** The names read from readable rows, when the rows list `m` exactly. */
  lemma NamesFromRows(rows: seq<Row>, m: map<string, string>)
    requires forall k :: 0 <= k < |rows| ==> Readable(rows[k].id, rows[k].name)
    requires forall k :: 0 <= k < |rows| ==> rows[k].id in m && m[rows[k].id] == rows[k].name
    requires forall id :: id in m ==> exists k :: 0 <= k < |rows| && rows[k].id == id
    ensures NamesFrom(Pairs(rows)) == m
  {
    var pairs := Stripped(Pairs(rows));
    forall k | 0 <= k < |rows| ensures pairs[k] == (rows[k].id, rows[k].name) {
      StripReadable(rows[k].id, rows[k].name);
    }
    forall id | id in m ensures exists k :: 0 <= k < |pairs| && pairs[k].0 == id {
      var k :| 0 <= k < |rows| && rows[k].id == id;
      assert pairs[k].0 == id;
    }
    AssignedIs(pairs, m);
  }

  // ----- the JSON file, and the fallback to the text file -----

  /**
   * A value of `artists_without_genres.json`: an object with a `name` key,
   * or anything else, with `text` its `str()`.
   */
  datatype JsonEntry = Named(name: string) | Unnamed(text: string)

  /** `artists_without_genres.json` as `json.load` finds it. */
  datatype JsonFile = Missing | Malformed | Loaded(data: map<string, JsonEntry>)

  /** `artist_info['name']`, or `str(artist_info)` for the old format. */
  function EntryName(e: JsonEntry): string
  {
    match e
      case Named(n) => n
      case Unnamed(t) => t
  }

  /** The artists read from the JSON object. */
  function NamesFromJson(data: map<string, JsonEntry>): (r: map<string, string>)
    ensures r.Keys == data.Keys
  {
    map id | id in data :: EntryName(data[id])
  }

  /** The loop of `extract_artist_names_from_json` over `data.items()`, visiting the ids in the order `ids`. */
  method NamesOfJson(data: map<string, JsonEntry>, ids: seq<string>) returns (artists: map<string, string>)
    requires Elems(ids) == data.Keys
    ensures artists == NamesFromJson(data)
  {
    artists := map[];
    for i: nat := 0 to |ids|
      invariant artists.Keys == Elems(ids[..i]) <= data.Keys
      invariant forall id :: id in artists ==> artists[id] == EntryName(data[id])
    {
      ElemsStep(ids, i);
      var artistInfo := data[ids[i]];
      match artistInfo {
        case Named(n) => artists := artists[ids[i] := n];
        case Unnamed(t) => artists := artists[ids[i] := t];
      }
    }
    assert ids[..|ids|] == ids;
  }

  const FileNotFound := "FileNotFoundError"

  /** `extract_artist_names_from_file`: opening a missing text file raises. */
  function ReadText(text: Option<string>): Result<map<string, string>>
  {
    match text
      case None => Err(FileNotFound)
      case Some(content) => Ok(NamesFrom(FindAll(content, 0)))
  }

  /**
   * `extract_artist_names_from_json`: the JSON names, or, when the JSON file
   * is missing or does not parse, the names of the text file.
   */
  function ReadArtists(json: JsonFile, text: Option<string>): Result<map<string, string>>
  {
    match json
      case Loaded(data) => Ok(NamesFromJson(data))
      case _ => ReadText(text)
  }

  /** The reader, with `list(data)` the order `items()` gives. */
  method ExtractArtistNamesFromJson(json: JsonFile, text: Option<string>, listOf: set<string> -> seq<string>)
    returns (r: Result<map<string, string>>)
    requires Enumerates(listOf)
    ensures r == ReadArtists(json, text)
  {
    match json {
      case Loaded(data) =>
        var artists := NamesOfJson(data, listOf(data.Keys));
        r := Ok(artists);
      case _ =>
        if text.None? {
          r := Err(FileNotFound);
        } else {
          var artists := ExtractNamesFromText(text.value);
          r := Ok(artists);
        }
    }
  }

  /** The reader's errors: only a missing text file, once the JSON file failed. */
  lemma ReadArtistsFails(json: JsonFile, text: Option<string>)
    ensures ReadArtists(json, text).Err? <==> !json.Loaded? && text.None?
    ensures ReadArtists(json, text).Err? ==> ReadArtists(json, text).error == FileNotFound
  {
  }

  // ----- the files the listing writes, read back -----

  /** The JSON value `json.dump` writes for each record of the listing: `{"name": ..., "genres": []}`. */
  function JsonOf(data: Cache): (r: map<string, JsonEntry>)
    requires forall id :: id in data ==> data[id].name.Some?
    ensures r.Keys == data.Keys
  {
    map id | id in data :: Named(data[id].name.value)
  }

  /** The names the listing collected. */
  function ListedNames(data: Cache): (r: map<string, string>)
    ensures r.Keys == data.Keys
  {
    map id | id in data :: NameOf(data[id])
  }

  /** The JSON file of a listing reads back as its names. */
  lemma JsonReadBack(data: Cache)
    requires forall id :: id in data ==> data[id].name.Some?
    ensures NamesFromJson(JsonOf(data)) == ListedNames(data)
  {
    var r, m := NamesFromJson(JsonOf(data)), ListedNames(data);
    forall id | id in r ensures r[id] == m[id] {
      assert JsonOf(data)[id] == Named(data[id].name.value);
    }
    assert r.Keys == m.Keys;
  }

  /** Every artist the listing collects has a name. */
  lemma ListedHaveNames(steps: seq<Step>)
    ensures SavedOf(steps).json == DataOf(steps)
    ensures forall id :: id in DataOf(steps) ==> DataOf(steps)[id].name.Some?
  {
    forall id | id in DataOf(steps) ensures DataOf(steps)[id].name.Some? {
      DataOfMeaning(steps, id);
    }
  }

  /** The JSON file the listing saves reads back as the names it collected. */
  lemma ListingJsonReadBack(steps: seq<Step>)
    ensures forall id :: id in SavedOf(steps).json ==> SavedOf(steps).json[id].name.Some?
    ensures ReadArtists(Loaded(JsonOf(SavedOf(steps).json)), None) == Ok(ListedNames(DataOf(steps)))
  {
    ListedHaveNames(steps);
    JsonReadBack(DataOf(steps));
  }

  /**
   * When the JSON file is missing or does not parse, the text file the
   * listing saves reads back as the same names, as long as every id and
   * name is readable in the text.
   */
  lemma ListingTextReadBack(steps: seq<Step>, broken: JsonFile)
    requires forall id :: id in DataOf(steps) ==> Readable(id, NameOf(DataOf(steps)[id]))
    requires !broken.Loaded?
    ensures ReadArtists(broken, Some(SavedOf(steps).text)) == Ok(ListedNames(DataOf(steps)))
  {
    var data := DataOf(steps);
    var rows := SortedRows(steps);
    SortedRowsMeaning(steps, Row("", ""));
    forall k | 0 <= k < |rows| ensures Readable(rows[k].id, rows[k].name) {
      assert NameOf(data[rows[k].id]) == rows[k].name;
    }
    TextRoundTrip(rows);
    NamesFromRows(rows, ListedNames(data));
  }

  // ----- the lookups -----

  /** What `get_artist_genres(artist_name)` did: raised with a message, or returned a list or `None`. */
  datatype Lookup = Raised(message: string) | Found(genres: Option<seq<string>>)

  /** A normalizer that, like `normalize_genre`, gives at most one label per genre. */
  ghost predicate AtMostOne(norm: string -> seq<string>)
  {
    forall g :: |norm(g)| <= 1
  }

  lemma NormalizedAtMostOne()
    ensures AtMostOne(Normalized)
  {
  }

  /**
   * `normalized_genres`: every raw genre normalized by `norm`, the results
   * flattened and de-duplicated in order; empty when the lookup found
   * nothing. The script's normalizer is `Normalized`.
   */
  function NormalizedGenres(genres: Option<seq<string>>, norm: string -> seq<string>): seq<string>
  {
    match genres
      case None => []
      case Some(g) => Dedup(FlatMap(g, norm))
  }

  /** Each normalized genre once, exactly the labels of the raw genres, and no more of them than raw genres. */
  lemma NormalizedGenresMeaning(genres: seq<string>, norm: string -> seq<string>, genre: string)
    requires AtMostOne(norm)
    ensures Distinct(NormalizedGenres(Some(genres), norm))
    ensures genre in NormalizedGenres(Some(genres), norm) <==> exists i :: 0 <= i < |genres| && norm(genres[i]) == [genre]
    ensures |NormalizedGenres(Some(genres), norm)| <= |genres|
  {
    FlatMapMember(genres, norm, genre);
    if genre in FlatMap(genres, norm) {
      var i :| 0 <= i < |genres| && genre in norm(genres[i]);
      assert norm(genres[i]) == [genre];
    }
    FlatMapAtMostOne(genres, norm);
  }

  /** Pieces of at most one element each flatten to no more elements than there were pieces. */
  lemma {:induction false} FlatMapAtMostOne<T, U>(s: seq<T>, f: T -> seq<U>)
    requires forall x :: |f(x)| <= 1
    ensures |FlatMap(s, f)| <= |s|
  {
    if s != [] {
      FlatMapAtMostOne(s[..|s| - 1], f);
    }
  }

  /** `results[artist_id]` for the outcome of the artist's lookup. */
  function ResultFor(name: string, lookup: Lookup, norm: string -> seq<string>): CustomEntry
  {
    match lookup
      case Raised(message) => CDict(Some(name), Some([]), Some(message))
      case Found(genres) => CDict(Some(name), Some(NormalizedGenres(genres, norm)), None)
  }

  /**
   * `get_genres_for_artists`, with `answer(id)` the outcome of the lookup
   * made for the artist `id` (the lookups are not assumed to agree for
   * artists of the same name).
   */
  function Results(artists: map<string, string>, answer: string -> Lookup, norm: string -> seq<string>): (r: CustomGenres)
    ensures r.Keys == artists.Keys
  {
    map id | id in artists :: ResultFor(artists[id], answer(id), norm)
  }

  /**
   * One entry per artist, with its name; the error exactly when the lookup
   * raised, and then no genres; otherwise each normalized genre once.
   */
  lemma ResultsMeaning(artists: map<string, string>, answer: string -> Lookup, norm: string -> seq<string>, id: string)
    requires AtMostOne(norm) && id in artists
    ensures var e := Results(artists, answer, norm)[id];
      e.CDict? && e.name == Some(artists[id]) && e.genres.Some? && Distinct(e.genres.value) &&
      (e.error.Some? <==> answer(id).Raised?) &&
      (answer(id).Raised? ==> e.genres == Some([]) && e.error == Some(answer(id).message)) &&
      (answer(id).Found? && answer(id).genres.None? ==> e.genres == Some([]))
  {
    if answer(id).Found? && answer(id).genres.Some? {
      NormalizedGenresMeaning(answer(id).genres.value, norm, "");
    }
  }

  /** One pass of the lookup loop's body, for one artist. */
  method ProcessArtist(artistName: string, lookup: Lookup) returns (entry: CustomEntry)
    ensures entry == ResultFor(artistName, lookup, Normalized)
  {
    match lookup {
      case Raised(message) =>
        entry := CDict(Some(artistName), Some([]), Some(message));
      case Found(genres) =>
        var normalizedGenres := [];
        if genres.Some? && genres.value != [] {
          var flat := FlattenNormalized(genres.value);
          normalizedGenres := DedupLoop(flat);
        }
        entry := CDict(Some(artistName), Some(normalizedGenres), None);
    }
  }

  /** The loop of `get_genres_for_artists` over `artists.items()`, visiting the ids in the order `ids`. */
  method GetGenresForArtists(artists: map<string, string>, ids: seq<string>, answer: string -> Lookup)
    returns (results: CustomGenres)
    requires Elems(ids) == artists.Keys
    ensures results == Results(artists, answer, Normalized)
  {
    results := map[];
    for i: nat := 0 to |ids|
      invariant results.Keys == Elems(ids[..i]) <= artists.Keys
      invariant forall id :: id in results ==> results[id] == ResultFor(artists[id], answer(id), Normalized)
    {
      ElemsStep(ids, i);
      var entry := ProcessArtist(artists[ids[i]], answer(ids[i]));
      results := results[ids[i] := entry];
    }
    assert ids[..|ids|] == ids;
  }

  // ----- the summary -----

  /** `data.get('genres')` is a non-empty list. */
  predicate HasGenres(e: CustomEntry)
  {
    e.CDict? && e.genres.Some? && e.genres.value != []
  }

  /** The artists `main` counts as having genres. */
  function WithGenresFound(results: CustomGenres): (r: set<string>)
    ensures r <= results.Keys
  {
    set id | id in results && HasGenres(results[id])
  }

  /** The three counts of `main`'s summary. */
  datatype Summary = Summary(total: nat, withGenres: nat, withoutGenres: nat)

  function SummaryOf(results: CustomGenres): Summary
  {
    var found := |WithGenresFound(results)|;
    SetCardLe(WithGenresFound(results), results.Keys);
    Summary(|results|, found, |results| - found)
  }

  lemma SetCardLe<T>(a: set<T>, b: set<T>)
    requires a <= b
    ensures |a| <= |b|
  {
    assert b == a + (b - a);
  }

  /** Some genre normalizes to a label exactly when the normalized list is not empty. */
  lemma NormalizedNonEmpty(genres: seq<string>, norm: string -> seq<string>)
    requires AtMostOne(norm)
    ensures NormalizedGenres(Some(genres), norm) != [] <==> exists i :: 0 <= i < |genres| && norm(genres[i]) != []
  {
    var labels := NormalizedGenres(Some(genres), norm);
    if labels != [] {
      NormalizedGenresMeaning(genres, norm, labels[0]);
    }
    if exists i :: 0 <= i < |genres| && norm(genres[i]) != [] {
      var i :| 0 <= i < |genres| && norm(genres[i]) != [];
      NormalizedGenresMeaning(genres, norm, norm(genres[i])[0]);
    }
  }

  /**
   * An artist counts as having genres exactly when its lookup found a genre
   * that normalizes to a label; a lookup that raised counts as without.
   */
  lemma FoundMeaning(artists: map<string, string>, answer: string -> Lookup, norm: string -> seq<string>, id: string)
    requires AtMostOne(norm) && id in artists
    ensures id in WithGenresFound(Results(artists, answer, norm)) <==>
      answer(id).Found? && answer(id).genres.Some? &&
      exists i :: 0 <= i < |answer(id).genres.value| && norm(answer(id).genres.value[i]) != []
  {
    if answer(id).Found? && answer(id).genres.Some? {
      NormalizedNonEmpty(answer(id).genres.value, norm);
    }
  }

  /** The summary counts every artist read once, with genres or without. */
  lemma SummaryCounts(artists: map<string, string>, answer: string -> Lookup, norm: string -> seq<string>)
    ensures var s := SummaryOf(Results(artists, answer, norm));
      s.total == |artists| && s.withGenres + s.withoutGenres == s.total &&
      s.withGenres == |WithGenresFound(Results(artists, answer, norm))|
  {
    var results := Results(artists, answer, norm);
    assert |results| == |results.Keys| == |artists.Keys| == |artists|;
  }

  /** `main`: read the artists, look each one up, and count; a missing text file raises before any lookup. */
  method Run(json: JsonFile, text: Option<string>, listOf: set<string> -> seq<string>, answer: string -> Lookup)
    returns (r: Result<(CustomGenres, Summary)>)
    requires Enumerates(listOf)
    ensures r.Err? <==> ReadArtists(json, text).Err?
    ensures r.Ok? ==> var results := Results(ReadArtists(json, text).value, answer, Normalized);
      r.value == (results, SummaryOf(results))
  {
    var artists := ExtractArtistNamesFromJson(json, text, listOf);
    if artists.Err? {
      return Err(artists.error);
    }
    var results := GetGenresForArtists(artists.value, listOf(artists.value.Keys), answer);
    r := Ok((results, SummaryOf(results)));
  }
}
