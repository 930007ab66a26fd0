/**
 * `normalize_genre` from Genre_Tools.py: a raw genre tag becomes at most one
 * canonical label, by fixed rules tried in order.
 *
 *  1. A tag that strips and lower-cases to "name" or "genres" is dropped.
 *  2. A trailing " music" (any case) is cut off and the tag stripped, unless
 *     the lower-cased tag is exactly "brazilian music" or "japanese music".
 *  3. The first special case, in table order, whose substring occurs in the
 *     lower-cased tag gives its key, title-cased, and nothing else.
 *  4. Otherwise the first umbrella mapping, in table order, with a substring
 *     hit gives its key title-cased ("Blues" for "(Rhythm and )Blues") — but
 *     that label is dropped when it is spelled exactly like the cleaned tag.
 *  5. Otherwise a non-empty cleaned tag is kept, title-cased.
 */
module GenreNormalize {
  import opened Wrappers
  import opened Text

  /** `special_cases`, in insertion order. */
  const SpecialCases: seq<(string, seq<string>)> := [
    ("electropop", ["electro-pop", "electro pop"]),
    ("anime", ["anime rap"]),
    ("electro and edm", ["electronica", "edm"]),
    ("hardcore", ["hardcore punk"]),
    ("drum and bass", ["bass music"]),
    ("mpb", ["m\U{00FA}sica popular brasileira"])
  ]

  /** `genre_mappings`, in insertion order. */
  const GenreMappings: seq<(string, seq<string>)> := [
    ("brazilian music", ["brazilian"]),
    ("metal", ["metal", "djent"]),
    ("emo", ["emo"]),
    ("rap and hip hop", ["rap", "hip hop", "hip-hop"]),
    ("folk", ["folk"]),
    ("industrial", ["industrial"]),
    ("indie and alternative", ["alternative", "indie", "alt"]),
    ("rock", ["rock", "hardcore", "grunge", "metal"]),
    ("punk", ["punk"]),
    ("glam", ["glam"]),
    ("country", ["country"]),
    ("sertanejo", ["sertanejo"]),
    ("mpb", ["mpb"]),
    ("(Rhythm and )Blues", ["blues", "r&b", "rhythm and blues"]),
    ("Japanese Music", ["kei", "japanese music", "kayokyoku", "j-pop", "shibuya-kei", "j-rock",
                        "anime", "japanese indie", "j-rap", "vocaloid"]),
    ("comedy", ["comedy", "meme"])
  ]

  /** `any(v.lower() in text for v in values)`; every table value is already lower-case. */
  predicate AnyIn(values: seq<string>, text: string)
  {
    exists v :: v in values && Contains(text, v)
  }

  /** The index of the first table entry, in order, with a substring hit in `text`. */
  function FirstHit(table: seq<(string, seq<string>)>, text: string): (r: Option<nat>)
    ensures r.Some? ==> r.value < |table| && AnyIn(table[r.value].1, text)
    ensures r.Some? ==> forall j :: 0 <= j < r.value ==> !AnyIn(table[j].1, text)
    ensures r.None? <==> forall j :: 0 <= j < |table| ==> !AnyIn(table[j].1, text)
  {
    if table == [] then None
    else if AnyIn(table[0].1, text) then Some(0)
    else
      match FirstHit(table[1..], text)
      case None => None
      case Some(k) => Some(k + 1)
  }

  /** The tags dropped outright. */
  predicate IsSentinel(genre: string)
  {
    Lower(Strip(genre)) == "name" || Lower(Strip(genre)) == "genres"
  }

  predicate IsMusicSuffix(s: string)
  {
    Lower(s) == " music"
  }

  /**
   * `re.sub(r' music$', '', genre, flags=re.IGNORECASE)`: `$` matches at the
   * end and also just before a final newline, and at most one of the two
   * positions can follow " music".
   */
  function DropMusicSuffix(genre: string): (r: string)
    ensures |r| <= |genre|
  {
    var n := |genre|;
    if n >= 6 && IsMusicSuffix(genre[n - 6..]) then genre[..n - 6]
    else if n >= 7 && genre[n - 1] == '\n' && IsMusicSuffix(genre[n - 7..n - 1]) then genre[..n - 7] + "\n"
    else genre
  }

  /** The two tags that keep their " music". */
  predicate KeepsMusic(genre: string)
  {
    Lower(genre) == "brazilian music" || Lower(genre) == "japanese music"
  }

  /** The tag after step 2. */
  function CleanGenre(genre: string): string
  {
    if KeepsMusic(genre) then genre else Strip(DropMusicSuffix(genre))
  }

  /** The label the umbrella mapping at index `k` emits. */
  function UmbrellaLabel(k: nat): string
    requires k < |GenreMappings|
  {
    if GenreMappings[k].0 == "(Rhythm and )Blues" then "Blues" else Title(GenreMappings[k].0)
  }

  /** The label the special case at index `k` emits. */
  function SpecialLabel(k: nat): string
    requires k < |SpecialCases|
  {
    Title(SpecialCases[k].0)
  }

  /** `normalize_genre(genre)`, as a value. */
  function Normalized(genre: string): (r: seq<string>)
    ensures |r| <= 1
    ensures IsSentinel(genre) ==> r == []
  {
    if IsSentinel(genre) then [] else Classified(CleanGenre(genre))
  }

  /** Steps 3 to 5 applied to a cleaned tag. */
  function Classified(cleaned: string): (r: seq<string>)
    ensures |r| <= 1
  {
    var low := Lower(cleaned);
    match FirstHit(SpecialCases, low)
    case Some(k) => [SpecialLabel(k)]
    case None =>
      match FirstHit(GenreMappings, low)
      case Some(k) => if UmbrellaLabel(k) == cleaned then [] else [UmbrellaLabel(k)]
      case None => if cleaned == "" then [] else [Title(cleaned)]
  }

  /**
   * The loop `for key, values in table.items(): if any(...): ...` with its
   * early exit: the index of the first entry with a hit, if any.
   */
  method ScanTable(table: seq<(string, seq<string>)>, text: string) returns (hit: Option<nat>)
    ensures hit == FirstHit(table, text)
  {
    var i := 0;
    while i < |table|
      invariant 0 <= i <= |table|
      invariant forall j :: 0 <= j < i ==> !AnyIn(table[j].1, text)
    {
      if AnyIn(table[i].1, text) {
        return Some(i);
      }
      i := i + 1;
    }
    return None;
  }

  /**
   * `normalize_genre`, step by step: the sentinel test and the suffix
   * removal, then the table scans.
   */
  method NormalizeGenre(genre: string) returns (r: seq<string>)
    ensures r == Normalized(genre)
  {
    if IsSentinel(genre) {
      return [];
    }
    var cleaned := genre;
    if !KeepsMusic(genre) {
      cleaned := Strip(DropMusicSuffix(genre));
    }
    r := ClassifyCleaned(cleaned);
  }

  /**
   * The rest of `normalize_genre`: the special-case scan with its early
   * return, the umbrella scan that stops at the first hit, the fall-through,
   * the removal of a label spelled like the tag, and the result set.
   */
  method ClassifyCleaned(cleaned: string) returns (r: seq<string>)
    ensures r == Classified(cleaned)
  {
    var low := Lower(cleaned);
    var result: set<string> := {};
    var special := ScanTable(SpecialCases, low);
    if special.Some? {
      result := result + {SpecialLabel(special.value)};
      return [SpecialLabel(special.value)];
    }
    var isSpecialCase := false;
    var mapping := ScanTable(GenreMappings, low);
    if mapping.Some? {
      isSpecialCase := true;
      result := result + {UmbrellaLabel(mapping.value)};
    }
    if !isSpecialCase && cleaned != "" {
      result := result + {Title(cleaned)};
    }
    if isSpecialCase && cleaned in result {
      result := result - {cleaned};
    }
    if result == {} {
      r := [];
    } else {
      var x :| x in result;
      r := [x];
    }
  }

  /** A special-case hit decides the result alone. */
  lemma SpecialCaseWins(genre: string, k: nat)
    requires !IsSentinel(genre)
    requires FirstHit(SpecialCases, Lower(CleanGenre(genre))) == Some(k)
    ensures Normalized(genre) == [SpecialLabel(k)]
  {
  }

  /** Without a special-case hit, the first umbrella hit gives its label, unless it is the tag's own spelling. */
  lemma UmbrellaLabelKept(genre: string, k: nat)
    requires !IsSentinel(genre)
    requires FirstHit(SpecialCases, Lower(CleanGenre(genre))) == None
    requires FirstHit(GenreMappings, Lower(CleanGenre(genre))) == Some(k)
    requires UmbrellaLabel(k) != CleanGenre(genre)
    ensures Normalized(genre) == [UmbrellaLabel(k)]
  {
  }

  /** An umbrella label spelled exactly like the cleaned tag is removed, leaving nothing. */
  lemma UmbrellaLabelDropped(genre: string, k: nat)
    requires !IsSentinel(genre)
    requires FirstHit(SpecialCases, Lower(CleanGenre(genre))) == None
    requires FirstHit(GenreMappings, Lower(CleanGenre(genre))) == Some(k)
    requires UmbrellaLabel(k) == CleanGenre(genre)
    ensures Normalized(genre) == []
  {
  }

  /** With no table hit the cleaned tag is kept, title-cased, if it is not empty. */
  lemma FallThrough(genre: string)
    requires !IsSentinel(genre)
    requires FirstHit(SpecialCases, Lower(CleanGenre(genre))) == None
    requires FirstHit(GenreMappings, Lower(CleanGenre(genre))) == None
    ensures Normalized(genre) == if CleanGenre(genre) == "" then [] else [Title(CleanGenre(genre))]
  {
  }

  /** The first entry with a hit, after entries without one, is what the scan finds. */
  lemma FirstHitAt(table: seq<(string, seq<string>)>, text: string, k: nat)
    requires k < |table| && AnyIn(table[k].1, text)
    requires forall j :: 0 <= j < k ==> !AnyIn(table[j].1, text)
    ensures FirstHit(table, text) == Some(k)
  {
  }

  /** A table in which no entry hits gives no match. */
  lemma NoHit(table: seq<(string, seq<string>)>, text: string)
    requires forall j :: 0 <= j < |table| ==> !AnyIn(table[j].1, text)
    ensures FirstHit(table, text) == None
  {
  }

  /** "name" and "genres", in any case and with any surrounding white space, are dropped. */
  lemma SentinelPadded(pre: string, core: string, post: string)
    requires forall i :: 0 <= i < |pre| ==> IsSpace(pre[i])
    requires forall i :: 0 <= i < |post| ==> IsSpace(post[i])
    requires Lower(core) == "name" || Lower(core) == "genres"
    ensures Normalized(pre + core + post) == []
  {
    assert !IsSpace(Lower(core)[0]) && !IsSpace(Lower(core)[|core| - 1]);
    StripPadded(pre, core, post);
  }

  /**
   * A trailing " music", in any case, is cut and the rest stripped, unless
   * the whole tag is one of the two kept tags.
   */
  lemma MusicSuffixRemoved(stem: string, suffix: string)
    requires IsMusicSuffix(suffix)
    requires !KeepsMusic(stem + suffix)
    ensures CleanGenre(stem + suffix) == Strip(stem)
  {
    var g := stem + suffix;
    assert |suffix| == 6;
    assert g[|g| - 6..] == suffix;
    assert g[..|g| - 6] == stem;
  }

  /** The two kept tags reach the tables unchanged, " music" included. */
  lemma KeptTagsUnchanged(genre: string)
    requires KeepsMusic(genre)
    ensures CleanGenre(genre) == genre
    ensures Lower(CleanGenre(genre)) in {"brazilian music", "japanese music"}
  {
  }

  /** No table value is the empty string, so every hit is a real occurrence. */
  lemma TableValuesNonEmpty()
    ensures forall j, i :: 0 <= j < |SpecialCases| && 0 <= i < |SpecialCases[j].1| ==> SpecialCases[j].1[i] != ""
    ensures forall j, i :: 0 <= j < |GenreMappings| && 0 <= i < |GenreMappings[j].1| ==> GenreMappings[j].1[i] != ""
  {
    forall j, i | 0 <= j < |SpecialCases| && 0 <= i < |SpecialCases[j].1| ensures SpecialCases[j].1[i] != "" {
      if j == 0 { } else if j == 1 { } else if j == 2 { } else if j == 3 { } else if j == 4 { } else { }
    }
    forall j, i | 0 <= j < |GenreMappings| && 0 <= i < |GenreMappings[j].1| ensures GenreMappings[j].1[i] != "" {
      UmbrellaValuesNonEmpty(j, i);
    }
  }

  lemma UmbrellaValuesNonEmpty(j: nat, i: nat)
    requires j < |GenreMappings| && i < |GenreMappings[j].1|
    ensures GenreMappings[j].1[i] != ""
  {
    if j < 8 {
      if j == 0 { } else if j == 1 { } else if j == 2 { } else if j == 3 { }
      else if j == 4 { } else if j == 5 { } else if j == 6 { } else { }
    } else {
      if j == 8 { } else if j == 9 { } else if j == 10 { } else if j == 11 { }
      else if j == 12 { } else if j == 13 { } else if j == 14 { } else { }
    }
  }

  /** Only the empty string occurs in the empty string. */
  lemma ContainsInEmpty(table: seq<(string, seq<string>)>)
    requires forall j, i :: 0 <= j < |table| && 0 <= i < |table[j].1| ==> table[j].1[i] != ""
    ensures FirstHit(table, "") == None
  {
    forall j | 0 <= j < |table| ensures !AnyIn(table[j].1, "") {
      forall v | v in table[j].1 ensures !Contains("", v) {
        var i :| 0 <= i < |table[j].1| && table[j].1[i] == v;
      }
    }
  }

  /** A tag that is empty once cleaned gives no label. */
  lemma EmptyAfterCleaning(genre: string)
    requires CleanGenre(genre) == ""
    ensures Normalized(genre) == []
  {
    TableValuesNonEmpty();
    ContainsInEmpty(SpecialCases);
    ContainsInEmpty(GenreMappings);
    assert Lower("") == "";
  }
}
