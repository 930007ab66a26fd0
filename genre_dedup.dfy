/**
 * `deduplicate_hyphen_genres` from Genre_Tools.py, the hyphen-insensitive
 * de-duplication every cache writer applies last, and its key, which
 * `normalize_genre_for_storage` in Add_Custom_Genres.py computes too.
 */
module GenreDedup {
  import opened Text
  import opened Lists

  /** `' '.join(genre.lower().replace('-', ' ').split())`. */
  function HyphenKey(genre: string): string
  {
    Join(" ", SplitWs(ReplaceChar(Lower(genre), '-', ' ')))
  }

  /** A key holds no hyphen and no upper-case letter. */
  lemma HyphenKeyChars(genre: string, c: char)
    requires c in HyphenKey(genre)
    ensures c != '-' && !IsUpper(c)
  {
    var t := ReplaceChar(Lower(genre), '-', ' ');
    JoinChars(" ", SplitWs(t), c);
    if c != ' ' {
      var k :| 0 <= k < |SplitWs(t)| && c in SplitWs(t)[k];
      SplitWsChars(t, k, c);
    }
  }

  /**
   * A key is lower-case, hyphen-free, and its words are separated by single
   * spaces with none at either end; computing the key of a key changes nothing.
   */
  lemma HyphenKeyCanonical(genre: string)
    ensures Lower(HyphenKey(genre)) == HyphenKey(genre)
    ensures '-' !in HyphenKey(genre)
    ensures Join(" ", SplitWs(HyphenKey(genre))) == HyphenKey(genre)
    ensures HyphenKey(HyphenKey(genre)) == HyphenKey(genre)
  {
    var k := HyphenKey(genre);
    var ws := SplitWs(ReplaceChar(Lower(genre), '-', ' '));
    forall i | 0 <= i < |k| ensures LowerChar(k[i]) == k[i] && k[i] != '-' {
      HyphenKeyChars(genre, k[i]);
    }
    assert Lower(k) == k;
    assert ReplaceChar(k, '-', ' ') == k;
    SplitJoinWords(ws);
  }

  /** A key has no white space at either end and no two white-space characters in a row. */
  lemma HyphenKeySpacing(genre: string)
    ensures SingleSpaced(HyphenKey(genre))
  {
    JoinWordsSpacing(SplitWs(ReplaceChar(Lower(genre), '-', ' ')));
  }

  /**
   * `deduplicate_hyphen_genres(genres)`: for every key, the first genre with
   * that key, in the order the keys first appear.
   */
  function HyphenDedup(genres: seq<string>): (r: seq<string>)
    ensures Distinct(Keys(r, HyphenKey))
    ensures forall i :: 0 <= i < |genres| ==> HyphenKey(genres[i]) in Keys(r, HyphenKey)
    ensures forall i :: 0 <= i < |r| ==> r[i] in genres
  {
    DedupBy(genres, HyphenKey)
  }

  /**
   * The result is the input with exactly the genres that are not the first
   * of their key left out, in the input's order.
   */
  lemma HyphenDedupFirstPerKey(genres: seq<string>)
    ensures Subsequence(HyphenDedup(genres), genres)
    ensures forall i :: 0 <= i < |genres| && FirstOfKey(genres, HyphenKey, i) ==> genres[i] in HyphenDedup(genres)
    ensures forall k :: 0 <= k < |HyphenDedup(genres)| ==>
      exists i :: 0 <= i < |genres| && genres[i] == HyphenDedup(genres)[k] && FirstOfKey(genres, HyphenKey, i)
  {
    DedupBySubsequence(genres, HyphenKey);
    forall i | 0 <= i < |genres| && FirstOfKey(genres, HyphenKey, i) ensures genres[i] in HyphenDedup(genres) {
      DedupByKeepsFirst(genres, HyphenKey, i);
    }
    forall k | 0 <= k < |HyphenDedup(genres)|
      ensures exists i :: 0 <= i < |genres| && genres[i] == HyphenDedup(genres)[k] && FirstOfKey(genres, HyphenKey, i)
    {
      DedupByOnlyFirst(genres, HyphenKey, k);
    }
  }

  /** De-duplicating twice is de-duplicating once. */
  lemma HyphenDedupIdempotent(genres: seq<string>)
    ensures HyphenDedup(HyphenDedup(genres)) == HyphenDedup(genres)
  {
    DedupByIdempotent(genres, HyphenKey);
  }

  /** "pop-rock" and "pop rock" share a key, so only the first stays. */
  lemma HyphenDedupPopRock()
    ensures HyphenKey("pop-rock") == HyphenKey("pop rock") == "pop rock"
    ensures HyphenDedup(["pop-rock", "pop rock"]) == ["pop-rock"]
  {
    PopRockKeys();
    SameKeyPair("pop-rock", "pop rock", HyphenKey);
  }

  lemma PopRockKeys()
    ensures HyphenKey("pop-rock") == "pop rock" && HyphenKey("pop rock") == "pop rock"
  {
    PopRockWords();
    LowerOfLower("pop-rock");
    PopRockSpaced();
    PopRockKeyOfKey();
  }

  lemma PopRockKeyOfKey()
    ensures HyphenKey("pop rock") == "pop rock"
  {
    PopRockWords();
    LowerOfLower("pop rock");
    PopRockSpaced();
  }

  lemma PopRockWords()
    ensures SplitWs("pop rock") == ["pop", "rock"] && Join(" ", ["pop", "rock"]) == "pop rock"
  {
    var ws := ["pop", "rock"];
    assert IsWord("pop") && IsWord("rock");
    SplitJoinWords(ws);
    assert Join(" ", ws) == "pop rock";
  }

  lemma PopRockSpaced()
    ensures ReplaceChar("pop-rock", '-', ' ') == "pop rock" && ReplaceChar("pop rock", '-', ' ') == "pop rock"
  {
    var r := ReplaceChar("pop-rock", '-', ' ');
    assert r[3] == ' ';
    var q := ReplaceChar("pop rock", '-', ' ');
    assert q[3] == ' ';
  }

  /** Of two elements with one key, only the first stays. */
  lemma SameKeyPair<T, K>(a: T, b: T, key: T -> K)
    requires key(a) == key(b)
    ensures DedupBy([a, b], key) == [a]
  {
    var s := [a, b];
    assert s[..1] == [a] && s[..1][..0] == [];
    assert Keys([a], key) == [key(a)];
  }

  /**
   * `deduplicate_hyphen_genres`: the loop that fills a dict from key to the
   * first genre with it and returns its values in insertion order.
   */
  method DeduplicateHyphenGenres(genres: seq<string>) returns (r: seq<string>)
    ensures r == HyphenDedup(genres)
  {
    r := DedupByLoop(genres, HyphenKey);
  }
}
