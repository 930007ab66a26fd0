/**
 * The steps the cache writers chain to build a record's genre list:
 * normalizing every tag and flattening (`for g in genres:
 * normalized.extend(normalize_genre(g))`), order de-duplication
 * (`list(dict.fromkeys(...))`), appending custom genres or one regional tag,
 * and hyphen de-duplication. The lemmas are stated for any normalizer
 * `norm`; the writers use `Normalized`.
 */
module GenrePipeline {
  import opened Wrappers
  import opened Text
  import opened Lists
  import opened GenreNormalize
  import opened GenreDedup

  /** The flattening loop. */
  method FlattenNormalized(genres: seq<string>) returns (normalized: seq<string>)
    ensures normalized == FlatMap(genres, Normalized)
  {
    normalized := [];
    for j: nat := 0 to |genres|
      invariant normalized == FlatMap(genres[..j], Normalized)
    {
      var labels := NormalizeGenre(genres[j]);
      FlatMapStep(genres, Normalized, j);
      normalized := normalized + labels;
    }
    assert genres[..|genres|] == genres;
  }

  /**
   * Normalize and flatten, de-duplicate in order, append `tag`, and
   * hyphen-de-duplicate: the tail every record pipeline shares.
   */
  function Pipeline(genres: seq<string>, norm: string -> seq<string>, tag: seq<string>): (r: seq<string>)
    ensures Distinct(Keys(r, HyphenKey))
  {
    HyphenDedup(Dedup(FlatMap(genres, norm)) + tag)
  }

  /** Every stored genre is a label of some input genre, or the appended tag. */
  lemma PipelineMember(genres: seq<string>, norm: string -> seq<string>, tag: seq<string>, x: string)
    requires x in Pipeline(genres, norm, tag)
    ensures (exists i :: 0 <= i < |genres| && x in norm(genres[i])) || x in tag
  {
    var d := Dedup(FlatMap(genres, norm));
    var k :| 0 <= k < |Pipeline(genres, norm, tag)| && Pipeline(genres, norm, tag)[k] == x;
    assert x in d + tag;
    if x in d {
      FlatMapMember(genres, norm, x);
    }
  }

  /** Every label of an input genre, and the tag, keeps its key among the stored genres. */
  lemma PipelineKeepsKeys(genres: seq<string>, norm: string -> seq<string>, tag: seq<string>, x: string)
    requires (exists i :: 0 <= i < |genres| && x in norm(genres[i])) || x in tag
    ensures HyphenKey(x) in Keys(Pipeline(genres, norm, tag), HyphenKey)
  {
    var d := Dedup(FlatMap(genres, norm));
    var s := d + tag;
    var i: nat;
    if x in tag {
      var j :| 0 <= j < |tag| && tag[j] == x;
      i := |d| + j;
    } else {
      FlatMapMember(genres, norm, x);
      var j :| 0 <= j < |d| && d[j] == x;
      i := j;
    }
    assert s[i] == x;
    assert HyphenKey(s[i]) in Keys(HyphenDedup(s), HyphenKey);
  }

  /**
   * An appended tag whose key an earlier, different label already holds is
   * dropped by the hyphen de-duplication.
   */
  lemma PipelineTagDropped(genres: seq<string>, norm: string -> seq<string>, t: string, y: string)
    requires y in FlatMap(genres, norm) && y != t && HyphenKey(y) == HyphenKey(t)
    requires t !in FlatMap(genres, norm)
    ensures t !in Pipeline(genres, norm, [t])
  {
    var d := Dedup(FlatMap(genres, norm));
    var s := d + [t];
    var j :| 0 <= j < |d| && d[j] == y;
    NeverFirst(d, t, HyphenKey, j);
    if t in HyphenDedup(s) {
      var k :| 0 <= k < |DedupBy(s, HyphenKey)| && DedupBy(s, HyphenKey)[k] == t;
      DedupByOnlyFirst(s, HyphenKey, k);
    }
  }

  /** A new element appended after one of the same key is nowhere the first of its key. */
  lemma NeverFirst(d: seq<string>, t: string, key: string -> string, j: nat)
    requires t !in d && j < |d| && key(d[j]) == key(t)
    ensures forall i :: 0 <= i < |d + [t]| && (d + [t])[i] == t ==> !FirstOfKey(d + [t], key, i)
  {
    var s := d + [t];
    forall i | 0 <= i < |s| && s[i] == t
      ensures !FirstOfKey(s, key, i)
    {
      assert i == |d| by {
        if i < |d| {
          assert false;
        }
      }
      assert s[j] == d[j];
    }
  }

  lemma SameLowerSameKey(a: string, b: string)
    requires Lower(a) == Lower(b)
    ensures HyphenKey(a) == HyphenKey(b)
  {
  }

  lemma BrazilianKey()
    ensures HyphenKey("Brazilian Music") == HyphenKey("brazilian music")
  {
    assert Lower("Brazilian Music") == "brazilian music";
    assert Lower("brazilian music") == "brazilian music";
    SameLowerSameKey("Brazilian Music", "brazilian music");
  }

  /** The regional tag 'brazilian music' is dropped when the labels already hold 'Brazilian Music'. */
  lemma BrazilianTagDropped(genres: seq<string>, norm: string -> seq<string>)
    requires "Brazilian Music" in FlatMap(genres, norm) && "brazilian music" !in FlatMap(genres, norm)
    ensures "brazilian music" !in Pipeline(genres, norm, ["brazilian music"])
  {
    BrazilianKey();
    PipelineTagDropped(genres, norm, "brazilian music", "Brazilian Music");
  }

  // ----- the regional tags -----

  /**
   * `if country: if 'Brazil' in country: ... elif 'Japan' in country: ...`:
   * at most one tag, Brazil taking precedence.
   */
  function RegionalTag(country: Option<string>): (r: seq<string>)
    ensures |r| <= 1
    ensures r == ["brazilian music"] <==> country.Some? && Contains(country.value, "Brazil")
    ensures r == ["Japanese Music"] <==>
      country.Some? && !Contains(country.value, "Brazil") && Contains(country.value, "Japan")
    ensures r == [] <==> country.None? || (!Contains(country.value, "Brazil") && !Contains(country.value, "Japan"))
  {
    if country.Some? && country.value != "" then
      if Contains(country.value, "Brazil") then ["brazilian music"]
      else if Contains(country.value, "Japan") then ["Japanese Music"]
      else []
    else []
  }

  /** `if artist.get('country') == 'BR': ... elif ... == 'JP': ...`: the tag by exact country code. */
  function CodeTag(code: Option<string>): (r: seq<string>)
    ensures |r| <= 1
    ensures r == ["brazilian music"] <==> code == Some("BR")
    ensures r == ["Japanese Music"] <==> code == Some("JP")
  {
    if code == Some("BR") then ["brazilian music"]
    else if code == Some("JP") then ["Japanese Music"]
    else []
  }

  // ----- custom genres appended -----

  /** `[g for g in custom if g not in base]`. */
  function NotIn(custom: seq<string>, base: seq<string>): (r: seq<string>)
    ensures forall i :: 0 <= i < |r| ==> r[i] in custom && r[i] !in base
    ensures forall i :: 0 <= i < |custom| && custom[i] !in base ==> custom[i] in r
  {
    if custom == [] then []
    else
      var front := NotIn(custom[..|custom| - 1], base);
      var g := custom[|custom| - 1];
      assert forall i :: 0 <= i < |custom| - 1 ==> custom[..|custom| - 1][i] == custom[i];
      if g in base then front else front + [g]
  }

  /**
   * `all_genres.extend([g for g in custom if g not in all_genres])`: the
   * base list, then the custom genres it lacks, in their order; the filter
   * is evaluated against the base alone, so a custom genre listed twice is
   * appended twice.
   */
  function WithCustom(base: seq<string>, custom: seq<string>): (r: seq<string>)
    ensures |base| <= |r| && r[..|base|] == base
    ensures forall x :: x in r <==> x in base || x in custom
  {
    base + NotIn(custom, base)
  }

  /** A custom genre already present adds nothing. */
  lemma {:induction false} WithCustomPresent(base: seq<string>, custom: seq<string>)
    requires forall i :: 0 <= i < |custom| ==> custom[i] in base
    ensures WithCustom(base, custom) == base
  {
    if custom != [] {
      var front := custom[..|custom| - 1];
      assert forall i :: 0 <= i < |front| ==> front[i] == custom[i];
      WithCustomPresent(base, front);
    }
  }

  /** A custom genre listed twice and missing from the base is appended twice. */
  lemma WithCustomKeepsRepeats()
    ensures WithCustom([], ["Rock", "Rock"]) == ["Rock", "Rock"]
  {
    assert ["Rock", "Rock"][..1] == ["Rock"];
    assert ["Rock"][..0] == [];
    assert NotIn(["Rock"], []) == ["Rock"];
  }
}
