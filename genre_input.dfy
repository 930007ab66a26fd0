/**
 * Genres typed at a prompt as one comma-separated answer: the answer is
 * `split(',')` and each piece stripped; most scripts then drop the pieces
 * that strip to nothing (`[g.strip() for g in s.split(',') if g.strip()]`).
 */
module GenreInput {
  import opened Text

  /** A genre as a prompt can deliver it: not empty, no comma, no white space at either end. */
  predicate Clean(g: string)
  {
    g != [] && ',' !in g && !IsSpace(g[0]) && !IsSpace(g[|g| - 1])
  }

  /** `[p.strip() for p in parts]`. */
  function StripEach(parts: seq<string>): (r: seq<string>)
    ensures |r| == |parts|
  {
    seq(|parts|, k requires 0 <= k < |parts| => Strip(parts[k]))
  }

  /** The non-empty strings of `parts`, in order. */
  function KeepNonEmpty(parts: seq<string>): seq<string>
  {
    if parts == [] then []
    else (if parts[0] != "" then [parts[0]] else []) + KeepNonEmpty(parts[1..])
  }

  /** `[g.strip() for g in s.split(',') if g.strip()]`. */
  function SplitGenres(s: string): seq<string>
  {
    KeepNonEmpty(StripEach(SplitOn(s, ',')))
  }

  lemma {:induction false} KeepNonEmptyMember(parts: seq<string>, x: string)
    ensures x in KeepNonEmpty(parts) <==> x != "" && x in parts
  {
    if parts != [] {
      KeepNonEmptyMember(parts[1..], x);
      assert parts == [parts[0]] + parts[1..];
    }
  }

  lemma {:induction false} KeepNonEmptyAll(parts: seq<string>)
    requires forall k :: 0 <= k < |parts| ==> parts[k] != ""
    ensures KeepNonEmpty(parts) == parts
  {
    if parts != [] {
      KeepNonEmptyAll(parts[1..]);
      assert parts == [parts[0]] + parts[1..];
    }
  }

  /** A string without the separator splits into itself alone. */
  lemma {:induction false} SplitOnNone(s: string, c: char)
    requires c !in s
    ensures SplitOn(s, c) == [s]
  {
    if s != [] {
      SplitOnNone(s[1..], c);
      assert [s[0]] + s[1..] == s;
    }
  }

  /** Up to the first separator is the first piece. */
  lemma {:induction false} SplitOnCons(a: string, b: string, c: char)
    requires c !in a
    ensures SplitOn(a + [c] + b, c) == [a] + SplitOn(b, c)
  {
    var s := a + [c] + b;
    if a == [] {
      assert s == [c] + b && s[1..] == b;
    } else {
      assert s[0] == a[0] && s[1..] == a[1..] + [c] + b;
      SplitOnCons(a[1..], b, c);
      assert [a[0]] + a[1..] == a;
    }
  }

  /** Joining pieces without the separator and splitting again gives the pieces back. */
  lemma {:induction false} SplitJoinOn(parts: seq<string>, c: char)
    requires |parts| > 0 && forall k :: 0 <= k < |parts| ==> c !in parts[k]
    ensures SplitOn(Join([c], parts), c) == parts
  {
    if |parts| == 1 {
      SplitOnNone(parts[0], c);
    } else {
      SplitJoinOn(parts[1..], c);
      SplitOnCons(parts[0], Join([c], parts[1..]), c);
      assert parts == [parts[0]] + parts[1..];
    }
  }

  lemma {:induction false} KeepNonEmptyClean(parts: seq<string>)
    requires forall k :: 0 <= k < |parts| ==> parts[k] == "" || Clean(parts[k])
    ensures forall k :: 0 <= k < |KeepNonEmpty(parts)| ==> Clean(KeepNonEmpty(parts)[k])
  {
    if parts != [] {
      assert forall k :: 0 <= k < |parts[1..]| ==> parts[1..][k] == parts[k + 1];
      KeepNonEmptyClean(parts[1..]);
    }
  }

  /** Every genre of the answer is clean. */
  lemma SplitGenresClean(s: string)
    ensures forall k :: 0 <= k < |SplitGenres(s)| ==> Clean(SplitGenres(s)[k])
  {
    var pieces := SplitOn(s, ',');
    var stripped := StripEach(pieces);
    forall i | 0 <= i < |stripped| ensures stripped[i] == "" || Clean(stripped[i]) {
      StripChars(pieces[i], ',');
    }
    KeepNonEmptyClean(stripped);
  }

  /** The genres of the answer are exactly its non-empty stripped pieces. */
  lemma {:induction false} SplitGenresMember(s: string, x: string)
    ensures x in SplitGenres(s) <==> x != "" && exists p :: p in SplitOn(s, ',') && x == Strip(p)
  {
    var pieces := SplitOn(s, ',');
    var stripped := StripEach(pieces);
    assert SplitGenres(s) == KeepNonEmpty(stripped);
    KeepNonEmptyMember(stripped, x);
    if x in stripped {
      var i :| 0 <= i < |stripped| && stripped[i] == x;
      assert pieces[i] in pieces && x == Strip(pieces[i]);
    }
    if p :| p in pieces && x == Strip(p) {
      var i :| 0 <= i < |pieces| && pieces[i] == p;
      assert stripped[i] == x;
    }
  }

  /** A character the piece lacks is missing from the stripped piece too. */
  lemma StripChars(p: string, c: char)
    requires c !in p
    ensures c !in Strip(p)
  {
    var r := RStrip(p);
    assert forall i :: 0 <= i < |r| ==> r[i] == p[i];
    var l := LStrip(r);
    assert forall i :: 0 <= i < |l| ==> l[i] == r[|r| - |l| + i];
  }

  /** A clean genre is its own stripped form. */
  lemma StripClean(g: string)
    requires Clean(g)
    ensures Strip(g) == g
  {
    StripPadded("", g, "");
    assert "" + g + "" == g;
  }

  /** Clean genres joined with commas come back unchanged. */
  lemma {:induction false} SplitGenresJoin(gs: seq<string>)
    requires forall k :: 0 <= k < |gs| ==> Clean(gs[k])
    ensures SplitGenres(Join([','], gs)) == gs
  {
    if gs == [] {
      assert Join([','], gs) == "";
      assert StripEach([""]) == [""];
      assert KeepNonEmpty([""]) == [];
    } else {
      SplitJoinOn(gs, ',');
      var stripped := StripEach(gs);
      forall k | 0 <= k < |gs| ensures stripped[k] == gs[k] {
        StripClean(gs[k]);
      }
      assert stripped == gs;
      KeepNonEmptyAll(gs);
    }
  }

  /** An answer of white space only strips to the empty string. */
  lemma StripBlank(s: string)
    requires forall i :: 0 <= i < |s| ==> IsSpace(s[i])
    ensures Strip(s) == ""
  {
  }

  /** An answer of white space only gives no genres. */
  lemma SplitGenresBlank(s: string)
    requires forall i :: 0 <= i < |s| ==> IsSpace(s[i])
    ensures SplitGenres(s) == []
  {
    assert ',' !in s by {
      forall i | 0 <= i < |s| ensures s[i] != ',' {
        assert IsSpace(s[i]);
      }
    }
    SplitOnNone(s, ',');
    StripBlank(s);
    assert StripEach([s]) == [""];
    assert KeepNonEmpty([""]) == [];
  }
}
