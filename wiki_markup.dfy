/**
 * The two regular expressions and the separator split that
 * WikipediaAPI.py's `parse_complex_genres` applies to wikitext, written
 * out as scanners: `re.sub(r'<ref[^>]*>.*?</ref>', '', s, flags=re.DOTALL)`,
 * `re.findall(r'\[\[([^|\]]+)(?:\|([^\]]+))?\]\]', s)` and
 * `re.split(r'[,;\n|]', s)`.
 *
 * Both patterns match deterministically: each character class stops at
 * the very character the pattern needs next, so a shorter run can never
 * lead to a match the longest run misses, and each scanner takes the
 * longest run (the first `>`, `|` or `]`) and the first `</ref>`.
 */
module WikiMarkup {
  import opened Wrappers
  import opened Text

  /** The first index from `i` on holding `>`, or the end. */
  function TagEnd(s: string, i: nat): (r: nat)
    requires i <= |s|
    ensures i <= r <= |s|
    decreases |s| - i
  {
    if i == |s| || s[i] == '>' then i else TagEnd(s, i + 1)
  }

  /** The first index from `i` on where `</ref>` starts, if any. */
  function CloseAt(s: string, i: nat): (r: Option<nat>)
    requires i <= |s|
    ensures r.Some? ==> i <= r.value && r.value + 6 <= |s|
    decreases |s| - i
  {
    if i + 6 > |s| then None
    else if ClosesAt(s, i) then Some(i)
    else CloseAt(s, i + 1)
  }

  /** The length of the `<ref[^>]*>.*?</ref>` match at the start of `s`, if any. */
  function RefAt(s: string): (r: Option<nat>)
    ensures r.Some? ==> 11 <= r.value <= |s|
  {
    if |s| < 4 || s[..4] != "<ref" then None
    else
      var q := TagEnd(s, 4);
      if q == |s| then None
      else match CloseAt(s, q + 1)
        case None => None
        case Some(k) => Some(k + 6)
  }

  /** `re.sub(r'<ref[^>]*>.*?</ref>', '', s, flags=re.DOTALL)`. */
  function RemoveRefs(s: string): (r: string)
    ensures |r| <= |s|
    decreases |s|
  {
    if s == [] then []
    else match RefAt(s)
      case Some(n) => RemoveRefs(s[n..])
      case None => [s[0]] + RemoveRefs(s[1..])
  }

  /** A reference tag with the given attributes and body. */
  function RefTag(attrs: string, body: string): string
  {
    "<ref" + attrs + ">" + body + "</ref>"
  }

  /** `</ref>` starts at index `j` of `s`. */
  predicate ClosesAt(s: string, j: int)
  {
    0 <= j && j + 6 <= |s| && s[j..j + 6] == "</ref>"
  }

  /** `</ref>` does not occur in `s`. */
  ghost predicate NoClose(s: string)
  {
    forall k :: !ClosesAt(s, k)
  }

  lemma {:induction false} TagEndAt(s: string, i: nat, q: nat)
    requires i <= q < |s| && s[q] == '>'
    requires forall k :: i <= k < q ==> s[k] != '>'
    ensures TagEnd(s, i) == q
    decreases q - i
  {
    if i < q {
      TagEndAt(s, i + 1, q);
    }
  }

  lemma {:induction false} CloseAtFirst(s: string, i: nat, k: nat)
    requires i <= k && ClosesAt(s, k)
    requires forall j :: i <= j < k ==> !ClosesAt(s, j)
    ensures CloseAt(s, i) == Some(k)
    decreases k - i
  {
    if i < k {
      CloseAtFirst(s, i + 1, k);
    }
  }

  /** A well-formed reference tag at the start is matched whole. */
  lemma RefAtTag(attrs: string, body: string, rest: string)
    requires '>' !in attrs && NoClose(body)
    ensures RefAt(RefTag(attrs, body) + rest) == Some(|RefTag(attrs, body)|)
  {
    var s := RefTag(attrs, body) + rest;
    var q := 4 + |attrs|;
    var k := q + 1 + |body|;
    assert s[..4] == "<ref";
    RefTagOpen(attrs, body, rest);
    RefTagClose(attrs, body, rest);
    assert k + 6 == |RefTag(attrs, body)|;
  }

  /** The opening tag of a reference ends at the `>` after its attributes. */
  lemma RefTagOpen(attrs: string, body: string, rest: string)
    requires '>' !in attrs
    ensures var s := RefTag(attrs, body) + rest; 4 + |attrs| < |s| && TagEnd(s, 4) == 4 + |attrs|
  {
    var s := RefTag(attrs, body) + rest;
    var q := 4 + |attrs|;
    assert forall j :: 4 <= j < q ==> s[j] == attrs[j - 4];
    TagEndAt(s, 4, q);
  }

  /** The first `</ref>` after the opening tag is the one closing the body. */
  lemma RefTagClose(attrs: string, body: string, rest: string)
    requires NoClose(body)
    ensures var s := RefTag(attrs, body) + rest; var q := 4 + |attrs|;
      q + 1 <= |s| && CloseAt(s, q + 1) == Some(q + 1 + |body|)
  {
    var s := RefTag(attrs, body) + rest;
    var q := 4 + |attrs|;
    var k := q + 1 + |body|;
    assert s[k..k + 6] == "</ref>";
    assert s == s[..q + 1] + body + ("</ref>" + rest);
    forall j | q + 1 <= j < k ensures !ClosesAt(s, j) {
      BodyNoClose(s[..q + 1], body, "</ref>" + rest, j);
    }
    CloseAtFirst(s, q + 1, k);
  }

  /** No `</ref>` starts inside a body free of it and followed by `<`. */
  lemma BodyNoClose(pre: string, body: string, post: string, j: nat)
    requires NoClose(body) && post != [] && post[0] == '<'
    requires |pre| <= j < |pre| + |body|
    ensures !ClosesAt(pre + body + post, j)
  {
    var s := pre + body + post;
    var k := |pre| + |body|;
    if j + 6 <= k {
      assert s[j..j + 6] == body[j - |pre|..j - |pre| + 6];
      assert !ClosesAt(body, j - |pre|);
    } else if j + 6 <= |s| {
      assert s[j..j + 6][k - j] == s[k] == '<';
    }
  }

  /** Text without `<` is kept as it is, whatever follows it. */
  lemma {:induction false} RemoveRefsPlain(x: string, rest: string)
    requires '<' !in x
    ensures RemoveRefs(x + rest) == x + RemoveRefs(rest)
    decreases |x|
  {
    if x != [] {
      var s := x + rest;
      assert s[0] == x[0] && s[1..] == x[1..] + rest;
      assert RefAt(s) == None by {
        if |s| >= 4 {
          assert s[..4][0] == x[0];
        }
      }
      RemoveRefsPlain(x[1..], rest);
      assert x == [x[0]] + x[1..];
    } else {
      assert x + rest == rest;
    }
  }

  /** A well-formed reference tag is removed and nothing else. */
  lemma RemoveRefsTag(x: string, attrs: string, body: string, rest: string)
    requires '<' !in x && '>' !in attrs && NoClose(body)
    ensures RemoveRefs(x + RefTag(attrs, body) + rest) == x + RemoveRefs(rest)
  {
    var t := RefTag(attrs, body) + rest;
    assert x + RefTag(attrs, body) + rest == x + t;
    RemoveRefsPlain(x, t);
    RefAtTag(attrs, body, rest);
    assert t[|RefTag(attrs, body)|..] == rest;
  }

  /** One match of the link pattern: its first group and its second (empty when absent). */
  datatype Link = Link(target: string, display: string)

  /** The first index from `i` on holding `|` or `]`, or the end. */
  function TargetEnd(s: string, i: nat): (r: nat)
    requires i <= |s|
    ensures i <= r <= |s|
    decreases |s| - i
  {
    if i == |s| || s[i] == '|' || s[i] == ']' then i else TargetEnd(s, i + 1)
  }

  /** The first index from `i` on holding `]`, or the end. */
  function DisplayEnd(s: string, i: nat): (r: nat)
    requires i <= |s|
    ensures i <= r <= |s|
    decreases |s| - i
  {
    if i == |s| || s[i] == ']' then i else DisplayEnd(s, i + 1)
  }

  /** The link pattern's match at the start of `s` and its length, if any. */
  function LinkAt(s: string): (r: Option<(Link, nat)>)
    ensures r.Some? ==> 5 <= r.value.1 <= |s|
  {
    if |s| < 2 || s[0] != '[' || s[1] != '[' then None
    else
      var b := TargetEnd(s, 2);
      if b == 2 || b == |s| then None
      else if s[b] == '|' then
        var c := DisplayEnd(s, b + 1);
        if c == b + 1 || c + 1 >= |s| || s[c + 1] != ']' then None
        else Some((Link(s[2..b], s[b + 1..c]), c + 2))
      else if b + 1 < |s| && s[b + 1] == ']' then Some((Link(s[2..b], ""), b + 2))
      else None
  }

  /** `re.findall` of the link pattern: the matches, left to right, not overlapping. */
  function Links(s: string): (r: seq<Link>)
    decreases |s|
  {
    if s == [] then []
    else match LinkAt(s)
      case Some((l, n)) => [l] + Links(s[n..])
      case None => Links(s[1..])
  }

  /** A link the pattern can read back: a target free of `|` and `]`, a display free of `]`. */
  predicate Readable(l: Link)
  {
    l.target != [] && '|' !in l.target && ']' !in l.target && ']' !in l.display
  }

  /** The wikitext of a link: `[[target]]`, or `[[target|display]]`. */
  function Render(l: Link): string
  {
    if l.display == [] then "[[" + l.target + "]]" else "[[" + l.target + "|" + l.display + "]]"
  }

  /** Links written one after the other. */
  function RenderAll(ls: seq<Link>): string
  {
    if ls == [] then [] else Render(ls[0]) + RenderAll(ls[1..])
  }

  lemma {:induction false} TargetEndAt(s: string, i: nat, b: nat)
    requires i <= b < |s| && (s[b] == '|' || s[b] == ']')
    requires forall k :: i <= k < b ==> s[k] != '|' && s[k] != ']'
    ensures TargetEnd(s, i) == b
    decreases b - i
  {
    if i < b {
      TargetEndAt(s, i + 1, b);
    }
  }

  lemma {:induction false} DisplayEndAt(s: string, i: nat, c: nat)
    requires i <= c < |s| && s[c] == ']'
    requires forall k :: i <= k < c ==> s[k] != ']'
    ensures DisplayEnd(s, i) == c
    decreases c - i
  {
    if i < c {
      DisplayEndAt(s, i + 1, c);
    }
  }

  /** A readable link at the start is matched whole, with its target and display. */
  lemma LinkAtRender(l: Link, rest: string)
    requires Readable(l)
    ensures LinkAt(Render(l) + rest) == Some((l, |Render(l)|))
  {
    var s := Render(l) + rest;
    var b := 2 + |l.target|;
    assert s[2..b] == l.target;
    assert forall k :: 2 <= k < b ==> s[k] == l.target[k - 2];
    TargetEndAt(s, 2, b);
    if l.display != [] {
      var c := b + 1 + |l.display|;
      assert s[b + 1..c] == l.display;
      assert forall k :: b + 1 <= k < c ==> s[k] == l.display[k - b - 1];
      DisplayEndAt(s, b + 1, c);
    }
  }

  /** Reading back written links gives the same links. */
  lemma {:induction false} LinksRoundTrip(ls: seq<Link>)
    requires forall k :: 0 <= k < |ls| ==> Readable(ls[k])
    ensures Links(RenderAll(ls)) == ls
  {
    if ls != [] {
      var s := RenderAll(ls);
      LinkAtRender(ls[0], RenderAll(ls[1..]));
      assert s[|Render(ls[0])|..] == RenderAll(ls[1..]);
      LinksRoundTrip(ls[1..]);
    }
  }

  /** Text without `[` holds no link, whatever follows it. */
  lemma {:induction false} LinksPlain(x: string, rest: string)
    requires '[' !in x
    ensures Links(x + rest) == Links(rest)
    decreases |x|
  {
    if x != [] {
      var s := x + rest;
      assert s[0] == x[0] && s[1..] == x[1..] + rest;
      LinksPlain(x[1..], rest);
    } else {
      assert x + rest == rest;
    }
  }

  /** The characters `re.split(r'[,;\n|]', ...)` splits on. */
  const TextSeparators: set<char> := {',', ';', '\n', '|'}

  /** `re.split` on a character class: the pieces between separators, empty ones kept. */
  function SplitAny(s: string, seps: set<char>): (r: seq<string>)
    ensures |r| > 0
    ensures forall k, j :: 0 <= k < |r| && 0 <= j < |r[k]| ==> r[k][j] !in seps
  {
    if s == [] then [""]
    else
      var rest := SplitAny(s[1..], seps);
      if s[0] in seps then [""] + rest else [[s[0]] + rest[0]] + rest[1..]
  }

  /** `s` with every separator replaced by `c`. */
  function Unify(s: string, seps: set<char>, c: char): (r: string)
    ensures |r| == |s|
    ensures forall i :: 0 <= i < |s| ==> r[i] == if s[i] in seps then c else s[i]
  {
    seq(|s|, i requires 0 <= i < |s| => if s[i] in seps then c else s[i])
  }

  /**
   * Joining the pieces with one of the separators gives the text back with
   * every separator turned into that one: the pieces are exactly the runs
   * between separators.
   */
  lemma {:induction false} JoinSplitAny(s: string, seps: set<char>, c: char)
    requires c in seps
    ensures Join([c], SplitAny(s, seps)) == Unify(s, seps, c)
  {
    if s != [] {
      JoinSplitAny(s[1..], seps, c);
      var rest := SplitAny(s[1..], seps);
      assert Unify(s, seps, c) == [Unify(s, seps, c)[0]] + Unify(s[1..], seps, c);
      if s[0] in seps {
        assert Join([c], [""] + rest) == [c] + Join([c], rest);
      } else if |rest| == 1 {
        assert SplitAny(s, seps) == [[s[0]] + rest[0]];
      } else {
        assert Join([c], rest) == rest[0] + [c] + Join([c], rest[1..]);
        assert SplitAny(s, seps) == [[s[0]] + rest[0]] + rest[1..];
      }
    }
  }

  /** No character of `s` is a separator. */
  predicate SepFree(s: string, seps: set<char>)
  {
    forall j :: 0 <= j < |s| ==> s[j] !in seps
  }

  /** Each piece is free of separators. */
  lemma SplitAnyPiece(s: string, seps: set<char>, k: nat)
    requires k < |SplitAny(s, seps)|
    ensures SepFree(SplitAny(s, seps)[k], seps)
  {
  }

  /** Text without separators is one piece. */
  lemma {:induction false} SplitAnyPlain(s: string, seps: set<char>)
    requires SepFree(s, seps)
    ensures SplitAny(s, seps) == [s]
  {
    if s != [] {
      SplitAnyPlain(s[1..], seps);
      assert s == [s[0]] + s[1..];
    }
  }

  /** The text before the first separator is the first piece. */
  lemma {:induction false} SplitAnyCons(a: string, c: char, b: string, seps: set<char>)
    requires SepFree(a, seps) && c in seps
    ensures SplitAny(a + [c] + b, seps) == [a] + SplitAny(b, seps)
  {
    var s := a + [c] + b;
    if a == [] {
      assert s == [c] + b && s[1..] == b;
    } else {
      assert s[0] == a[0] && s[1..] == a[1..] + [c] + b;
      SplitAnyCons(a[1..], c, b, seps);
      assert a == [a[0]] + a[1..];
    }
  }

  /** Pieces free of separators joined with a separator split back into themselves. */
  lemma {:induction false} SplitAnyJoin(ws: seq<string>, seps: set<char>, c: char)
    requires c in seps && ws != []
    requires forall k :: 0 <= k < |ws| ==> SepFree(ws[k], seps)
    ensures SplitAny(Join([c], ws), seps) == ws
  {
    if |ws| == 1 {
      SplitAnyPlain(ws[0], seps);
    } else {
      SplitAnyJoin(ws[1..], seps, c);
      assert Join([c], ws) == ws[0] + [c] + Join([c], ws[1..]);
      SplitAnyCons(ws[0], c, Join([c], ws[1..]), seps);
    }
  }

  /** With one separator, the split is `str.split` on it. */
  lemma {:induction false} SplitAnyOne(s: string, c: char)
    ensures SplitAny(s, {c}) == SplitOn(s, c)
  {
    if s != [] {
      SplitAnyOne(s[1..], c);
    }
  }
}
