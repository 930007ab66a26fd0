/**
 * List operations the Python code writes inline: `list(dict.fromkeys(xs))`
 * (order-preserving de-duplication), flattening a list of lists, and cutting
 * a list into consecutive slices `xs[i:i + n]` for `i in range(0, len(xs), n)`.
 */
module Lists {

  predicate Distinct<T(==)>(s: seq<T>)
  {
    forall i, j :: 0 <= i < j < |s| ==> s[i] != s[j]
  }

  /** `list(dict.fromkeys(s))`: the first occurrence of every element, in order. */
  function Dedup<T(==)>(s: seq<T>): (r: seq<T>)
    ensures Distinct(r)
    ensures forall i :: 0 <= i < |r| ==> r[i] in s
    ensures forall i :: 0 <= i < |s| ==> s[i] in r
    ensures |r| <= |s|
  {
    if s == [] then []
    else
      var p := Dedup(s[..|s| - 1]);
      if s[|s| - 1] in p then p else p + [s[|s| - 1]]
  }

  lemma DedupSnoc<T>(s: seq<T>, x: T)
    ensures Dedup(s + [x]) == if x in s then Dedup(s) else Dedup(s) + [x]
  {
    assert (s + [x])[..|s|] == s;
  }

  /** A list without repetitions is its own de-duplication. */
  lemma {:induction false} DedupOfDistinct<T>(s: seq<T>)
    requires Distinct(s)
    ensures Dedup(s) == s
  {
    if s != [] {
      var p := s[..|s| - 1];
      DedupOfDistinct(p);
      assert s == p + [s[|s| - 1]];
      DedupSnoc(p, s[|s| - 1]);
    }
  }

  /** De-duplicating twice is de-duplicating once. */
  lemma DedupIdempotent<T>(s: seq<T>)
    ensures Dedup(Dedup(s)) == Dedup(s)
  {
    DedupOfDistinct(Dedup(s));
  }

  /**
   * The loop `for x in s: if x not in seen: seen.add(x); out.append(x)`,
   * which de-duplicates in order.
   */
  method DedupLoop<T(==)>(s: seq<T>) returns (r: seq<T>)
    ensures r == Dedup(s)
  {
    r := [];
    var seen: set<T> := {};
    for i: nat := 0 to |s|
      invariant r == Dedup(s[..i])
      invariant forall x :: x in seen <==> x in r
    {
      assert s[..i + 1][..i] == s[..i];
      if s[i] !in seen {
        seen := seen + {s[i]};
        r := r + [s[i]];
      }
    }
    assert s[..|s|] == s;
  }

  /** `set(s)`: the elements of a list. */
  function Elems<T>(s: seq<T>): (r: set<T>)
    ensures forall x :: x in r ==> x in s
    ensures forall i :: 0 <= i < |s| ==> s[i] in r
  {
    if s == [] then {} else Elems(s[..|s| - 1]) + {s[|s| - 1]}
  }

  lemma ElemsStep<T>(s: seq<T>, j: nat)
    requires j < |s|
    ensures Elems(s[..j + 1]) == Elems(s[..j]) + {s[j]}
  {
    assert s[..j + 1][..j] == s[..j];
  }

  lemma ElemsAppend<T>(a: seq<T>, b: seq<T>)
    ensures Elems(a + b) == Elems(a) + Elems(b)
  {
    forall x | x in Elems(a + b) ensures x in Elems(a) + Elems(b) {
      var k :| 0 <= k < |a + b| && (a + b)[k] == x;
      if k >= |a| {
        assert b[k - |a|] == x;
      }
    }
    forall x | x in Elems(a) + Elems(b) ensures x in Elems(a + b) {
      if x in Elems(a) {
        var k :| 0 <= k < |a| && a[k] == x;
        assert (a + b)[k] == x;
      } else {
        var k :| 0 <= k < |b| && b[k] == x;
        assert (a + b)[|a| + k] == x;
      }
    }
  }

  /** `list(s)` for a set lists exactly its elements, in an order the model does not fix. */
  ghost predicate Enumerates(listOf: set<string> -> seq<string>)
  {
    forall s :: Elems(listOf(s)) == s
  }

  /** `list(s)` for a set lists each element once. */
  ghost predicate ListsOnce(listOf: set<string> -> seq<string>)
  {
    forall s :: Distinct(listOf(s))
  }

  /** A list without repetitions has as many elements as its set. */
  lemma {:induction false} DistinctCard<T>(s: seq<T>)
    requires Distinct(s)
    ensures |Elems(s)| == |s|
  {
    if s != [] {
      var front := s[..|s| - 1];
      assert Distinct(front);
      DistinctCard(front);
      assert s[|s| - 1] !in Elems(front);
    }
  }

  /** Only the empty list has no elements. */
  lemma NoElemsEmpty<T>(s: seq<T>)
    requires Elems(s) == {}
    ensures s == []
  {
  }

  /** The concatenation of a list of lists. */
  function Flatten<T>(ss: seq<seq<T>>): (r: seq<T>)
  {
    if ss == [] then [] else Flatten(ss[..|ss| - 1]) + ss[|ss| - 1]
  }

  lemma {:induction false} FlattenAppend<T>(a: seq<seq<T>>, b: seq<seq<T>>)
    ensures Flatten(a + b) == Flatten(a) + Flatten(b)
    decreases |b|
  {
    if b == [] {
      assert a + b == a;
    } else {
      var b' := b[..|b| - 1];
      var last := b[|b| - 1];
      assert (a + b)[..|a + b| - 1] == a + b';
      assert (a + b)[|a + b| - 1] == last;
      assert Flatten(a + b) == Flatten(a + b') + last;
      FlattenAppend(a, b');
      assert Flatten(b) == Flatten(b') + last;
    }
  }

  /** An element is in the flattening iff it is in one of the lists. */
  lemma {:induction false} FlattenMember<T>(ss: seq<seq<T>>, x: T)
    ensures x in Flatten(ss) <==> exists k :: 0 <= k < |ss| && x in ss[k]
  {
    if ss != [] {
      FlattenMember(ss[..|ss| - 1], x);
      assert forall k :: 0 <= k < |ss| - 1 ==> ss[..|ss| - 1][k] == ss[k];
    }
  }

  /**
   * The slices `s[i:i + n]` for `i` in `range(0, len(s), n)`: consecutive,
   * non-empty, at most `n` long, all but the last exactly `n` long, and
   * together exactly `s`.
   */
  /** Flattening a list of one part gives that part, and a leading part comes first. */
  lemma FlattenCons<T>(x: seq<T>, rest: seq<seq<T>>)
    ensures Flatten([x]) == x
    ensures Flatten([x] + rest) == x + Flatten(rest)
  {
    assert Flatten([x]) == Flatten([x][..0]) + x;
    FlattenAppend([x], rest);
  }

  function Chunks<T>(s: seq<T>, n: nat): (r: seq<seq<T>>)
    requires n > 0
    ensures Flatten(r) == s
    ensures forall k :: 0 <= k < |r| ==> 0 < |r[k]| <= n
    ensures forall k :: 0 <= k < |r| - 1 ==> |r[k]| == n
    decreases |s|
  {
    if s == [] then []
    else if |s| <= n then
      assert Flatten([s]) == Flatten([s][..0]) + s;
      [s]
    else
      var rest := Chunks(s[n..], n);
      ChunksCons(s[..n], rest, n);
      assert s == s[..n] + s[n..];
      [s[..n]] + rest
  }

  /** One more full chunk in front. */
  lemma ChunksCons<T>(c: seq<T>, rest: seq<seq<T>>, n: nat)
    requires |c| == n > 0
    requires forall k :: 0 <= k < |rest| ==> 0 < |rest[k]| <= n
    requires forall k :: 0 <= k < |rest| - 1 ==> |rest[k]| == n
    ensures Flatten([c] + rest) == c + Flatten(rest)
    ensures forall k :: 0 <= k < |[c] + rest| ==> 0 < |([c] + rest)[k]| <= n
    ensures forall k :: 0 <= k < |[c] + rest| - 1 ==> |([c] + rest)[k]| == n
  {
    FlattenAppend([c], rest);
    assert Flatten([c]) == Flatten([c][..0]) + c;
    var r := [c] + rest;
    assert forall k :: 0 < k < |r| ==> r[k] == rest[k - 1];
  }

  /** `a` is `b` with some elements left out, order kept. */
  predicate Subsequence<T(==)>(a: seq<T>, b: seq<T>)
    decreases |b|
  {
    if a == [] then true
    else if b == [] then false
    else if a[|a| - 1] == b[|b| - 1] then Subsequence(a[..|a| - 1], b[..|b| - 1])
    else Subsequence(a, b[..|b| - 1])
  }

  /** A subsequence stays one when the longer list grows. */
  lemma {:induction false} SubsequenceExtend<T>(a: seq<T>, b: seq<T>, y: T)
    requires Subsequence(a, b)
    ensures Subsequence(a, b + [y])
    decreases |a| + |b|, 1
  {
    assert (b + [y])[..|b|] == b;
    if a != [] && a[|a| - 1] == y {
      SubsequenceDropLast(a, b);
    }
  }

  lemma {:induction false} SubsequenceDropLast<T>(a: seq<T>, b: seq<T>)
    requires a != [] && Subsequence(a, b)
    ensures Subsequence(a[..|a| - 1], b)
    decreases |a| + |b|, 0
  {
    var b' := b[..|b| - 1];
    assert b == b' + [b[|b| - 1]];
    if a[|a| - 1] == b[|b| - 1] {
      SubsequenceExtend(a[..|a| - 1], b', b[|b| - 1]);
    } else {
      SubsequenceDropLast(a, b');
      SubsequenceExtend(a[..|a| - 1], b', b[|b| - 1]);
    }
  }

  /** Keeping or dropping the last element of both lists preserves the relation. */
  lemma SubsequenceSnoc<T>(a: seq<T>, b: seq<T>, y: T)
    requires Subsequence(a, b)
    ensures Subsequence(a, b + [y]) && Subsequence(a + [y], b + [y])
  {
    SubsequenceExtend(a, b, y);
    assert (a + [y])[..|a|] == a && (b + [y])[..|b|] == b;
  }

  /** De-duplication keeps the order: it only leaves elements out. */
  lemma {:induction false} DedupSubsequence<T>(s: seq<T>)
    ensures Subsequence(Dedup(s), s)
  {
    if s != [] {
      var p := s[..|s| - 1];
      DedupSubsequence(p);
      assert s == p + [s[|s| - 1]];
      SubsequenceSnoc(Dedup(p), p, s[|s| - 1]);
    }
  }

  /** The key of every element, position by position. */
  function Keys<T, K>(s: seq<T>, key: T -> K): (r: seq<K>)
    ensures |r| == |s|
    ensures forall i :: 0 <= i < |s| ==> r[i] == key(s[i])
  {
    seq(|s|, i requires 0 <= i < |s| => key(s[i]))
  }

  /**
   * The first element of every key, in the order the keys first appear: what
   * filling a dict `{key(x): x}` only when the key is new, then listing its
   * values, gives.
   */
  function DedupBy<T(==), K(==)>(s: seq<T>, key: T -> K): (r: seq<T>)
    ensures Distinct(Keys(r, key))
    ensures forall i :: 0 <= i < |s| ==> key(s[i]) in Keys(r, key)
    ensures forall i :: 0 <= i < |r| ==> r[i] in s
    ensures |r| <= |s|
  {
    if s == [] then []
    else
      var front := s[..|s| - 1];
      var p := DedupBy(front, key);
      var x := s[|s| - 1];
      assert forall i :: 0 <= i < |s| - 1 ==> s[i] == front[i];
      if key(x) in Keys(p, key) then p
      else
        assert Keys(p + [x], key) == Keys(p, key) + [key(x)];
        p + [x]
  }

  /** The element at index `i` is the first with its key. */
  predicate FirstOfKey<T, K(==)>(s: seq<T>, key: T -> K, i: int)
    requires 0 <= i < |s|
  {
    forall j :: 0 <= j < i ==> key(s[j]) != key(s[i])
  }

  /** The result keeps the input's order: it only leaves elements out. */
  lemma {:induction false} DedupBySubsequence<T, K>(s: seq<T>, key: T -> K)
    ensures Subsequence(DedupBy(s, key), s)
  {
    if s != [] {
      var front := s[..|s| - 1];
      DedupBySubsequence(front, key);
      assert s == front + [s[|s| - 1]];
      SubsequenceSnoc(DedupBy(front, key), front, s[|s| - 1]);
    }
  }

  /** The first element of every key is kept. */
  lemma {:induction false} DedupByKeepsFirst<T, K>(s: seq<T>, key: T -> K, i: nat)
    requires i < |s| && FirstOfKey(s, key, i)
    ensures s[i] in DedupBy(s, key)
  {
    var front := s[..|s| - 1];
    if i < |s| - 1 {
      assert FirstOfKey(front, key, i) by {
        forall j | 0 <= j < i ensures key(front[j]) != key(front[i]) {
          assert front[j] == s[j] && front[i] == s[i];
        }
      }
      DedupByKeepsFirst(front, key, i);
    }
  }

  /** Every element kept is the first of its key. */
  lemma {:induction false} DedupByOnlyFirst<T, K>(s: seq<T>, key: T -> K, k: nat)
    requires k < |DedupBy(s, key)|
    ensures exists i :: 0 <= i < |s| && s[i] == DedupBy(s, key)[k] && FirstOfKey(s, key, i)
  {
    var front := s[..|s| - 1];
    var p := DedupBy(front, key);
    var x := s[|s| - 1];
    if k < |p| {
      assert DedupBy(s, key)[k] == p[k];
      DedupByOnlyFirst(front, key, k);
      var i :| 0 <= i < |front| && front[i] == p[k] && FirstOfKey(front, key, i);
      assert s[i] == front[i];
      assert FirstOfKey(s, key, i) by {
        forall j | 0 <= j < i ensures key(s[j]) != key(s[i]) {
          assert s[j] == front[j];
        }
      }
    } else {
      assert DedupBy(s, key)[k] == x && key(x) !in Keys(p, key);
      assert FirstOfKey(s, key, |s| - 1) by {
        forall j | 0 <= j < |s| - 1 ensures key(s[j]) != key(x) {
          assert s[j] == front[j];
        }
      }
    }
  }

  /** A list whose keys are all different is left as it is. */
  lemma {:induction false} DedupByOfDistinctKeys<T, K>(s: seq<T>, key: T -> K)
    requires Distinct(Keys(s, key))
    ensures DedupBy(s, key) == s
  {
    if s != [] {
      var front := s[..|s| - 1];
      var ks := Keys(s, key);
      assert Keys(front, key) == ks[..|s| - 1];
      DedupByOfDistinctKeys(front, key);
      assert key(s[|s| - 1]) !in Keys(front, key) by {
        assert key(s[|s| - 1]) == ks[|s| - 1];
      }
      assert s == front + [s[|s| - 1]];
    }
  }

  /** De-duplicating by key twice is de-duplicating once. */
  lemma DedupByIdempotent<T, K>(s: seq<T>, key: T -> K)
    ensures DedupBy(DedupBy(s, key), key) == DedupBy(s, key)
  {
    DedupByOfDistinctKeys(DedupBy(s, key), key);
  }

  /**
   * The loop of a de-duplication through an insertion-ordered dict from key
   * to the first element with it, whose values are the answer; the dict is
   * the pair of its keys and its values, in insertion order.
   */
  method DedupByLoop<T(==), K(==)>(s: seq<T>, key: T -> K) returns (r: seq<T>)
    ensures r == DedupBy(s, key)
  {
    var dictKeys: seq<K> := [];
    var dictValues: seq<T> := [];
    var i := 0;
    while i < |s|
      invariant 0 <= i <= |s|
      invariant dictValues == DedupBy(s[..i], key)
      invariant dictKeys == Keys(dictValues, key)
    {
      dictKeys, dictValues := DedupByNext(s, i, key, dictKeys, dictValues);
      i := i + 1;
    }
    assert s[..|s|] == s;
    r := dictValues;
  }

  /** `if key not in d: d[key] = value` for element `i`. */
  method DedupByNext<T(==), K(==)>(s: seq<T>, i: nat, key: T -> K, dictKeys: seq<K>, dictValues: seq<T>)
    returns (keys': seq<K>, values': seq<T>)
    requires i < |s| && dictValues == DedupBy(s[..i], key) && dictKeys == Keys(dictValues, key)
    ensures values' == DedupBy(s[..i + 1], key) && keys' == Keys(values', key)
  {
    var k := key(s[i]);
    DedupByStep(s, i, key);
    keys', values' := dictKeys, dictValues;
    if k !in dictKeys {
      KeysSnoc(dictValues, s[i], key);
      keys' := dictKeys + [k];
      values' := dictValues + [s[i]];
    }
  }

  /** One more element is kept exactly when its key is new. */
  lemma DedupByStep<T, K>(s: seq<T>, i: nat, key: T -> K)
    requires i < |s|
    ensures DedupBy(s[..i + 1], key) ==
      if key(s[i]) in Keys(DedupBy(s[..i], key), key) then DedupBy(s[..i], key) else DedupBy(s[..i], key) + [s[i]]
  {
    assert s[..i + 1][..i] == s[..i];
  }

  lemma KeysSnoc<T, K>(s: seq<T>, x: T, key: T -> K)
    ensures Keys(s + [x], key) == Keys(s, key) + [key(x)]
  {
  }

  lemma KeysAppend<T, K>(a: seq<T>, b: seq<T>, key: T -> K)
    ensures Keys(a + b, key) == Keys(a, key) + Keys(b, key)
  {
  }

  /** Some element satisfies `p`, looking from the last element back. */
  predicate AnyBack<T>(s: seq<T>, p: T -> bool)
  {
    s != [] && (AnyBack(s[..|s| - 1], p) || p(s[|s| - 1]))
  }

  /** `AnyBack` holds exactly when some index satisfies `p`. */
  lemma {:induction false} AnyBackIndex<T>(s: seq<T>, p: T -> bool)
    ensures AnyBack(s, p) <==> exists i :: 0 <= i < |s| && p(s[i])
  {
    if s != [] {
      var n := |s| - 1;
      var front := s[..n];
      AnyBackIndex(front, p);
      if AnyBack(front, p) {
        var i :| 0 <= i < |front| && p(front[i]);
        assert s[i] == front[i];
      }
      if exists i :: 0 <= i < |s| && p(s[i]) {
        var i :| 0 <= i < |s| && p(s[i]);
        if i < n {
          assert front[i] == s[i];
        }
      }
    }
  }

  /** A hit within a prefix is a hit of the whole sequence. */
  lemma {:induction false} AnyBackPrefix<T>(s: seq<T>, j: nat, p: T -> bool)
    requires j <= |s| && AnyBack(s[..j], p)
    ensures AnyBack(s, p)
    decreases |s| - j
  {
    if j < |s| {
      assert s[..j + 1][..j] == s[..j];
      AnyBackPrefix(s, j + 1, p);
    } else {
      assert s[..j] == s;
    }
  }

  /** A hit in a concatenation is a hit in one of its parts. */
  lemma {:induction false} AnyBackAppend<T>(a: seq<T>, b: seq<T>, p: T -> bool)
    ensures AnyBack(a + b, p) <==> AnyBack(a, p) || AnyBack(b, p)
  {
    if b == [] {
      assert a + b == a;
    } else {
      var front := b[..|b| - 1];
      AnyBackAppend(a, front, p);
      assert (a + b)[..|a + b| - 1] == a + front;
      assert (a + b)[|a + b| - 1] == b[|b| - 1];
    }
  }

  /** Two tests that agree on every element agree on the sequence. */
  lemma {:induction false} AnyBackSame<T>(s: seq<T>, p: T -> bool, q: T -> bool)
    requires forall x :: p(x) == q(x)
    ensures AnyBack(s, p) == AnyBack(s, q)
  {
    if s != [] {
      AnyBackSame(s[..|s| - 1], p, q);
    }
  }

  /** A list in which nothing occurs twice has no repetitions. */
  lemma MultisetOnce<T>(s: seq<T>)
    requires forall x :: multiset(s)[x] <= 1
    ensures Distinct(s)
  {
    forall i, j | 0 <= i < j < |s| ensures s[i] != s[j] {
      assert s == s[..j] + s[j..];
      assert s[i] == s[..j][i] && s[j] == s[j..][0];
      assert multiset(s)[s[j]] == multiset(s[..j])[s[j]] + multiset(s[j..])[s[j]];
    }
  }

  /** A subset is no larger. */
  lemma {:induction false} SubsetCard<T>(a: set<T>, b: set<T>)
    requires a <= b
    ensures |a| <= |b|
    decreases |b|
  {
    if a != {} {
      var x :| x in a;
      SubsetCard(a - {x}, b - {x});
    }
  }

  /** In a list without repetitions every element occurs once. */
  lemma {:induction false} DistinctOnce<T>(s: seq<T>, x: T)
    requires Distinct(s)
    ensures multiset(s)[x] == if x in s then 1 else 0
  {
    if s != [] {
      var front := s[..|s| - 1];
      assert Distinct(front);
      DistinctOnce(front, x);
      assert s == front + [s[|s| - 1]];
    }
  }

  /** A dictionary filled from `pairs` in order, `d[k] = v` for each: a later pair overwrites an earlier one. */
  function Assigned<K, V>(pairs: seq<(K, V)>): map<K, V>
  {
    if pairs == [] then map[]
    else Assigned(pairs[..|pairs| - 1])[pairs[|pairs| - 1].0 := pairs[|pairs| - 1].1]
  }

  lemma AssignedStep<K, V>(pairs: seq<(K, V)>, i: nat)
    requires i < |pairs|
    ensures Assigned(pairs[..i + 1]) == Assigned(pairs[..i])[pairs[i].0 := pairs[i].1]
  {
    assert pairs[..i + 1][..i] == pairs[..i];
  }

  /**
   * The keys of the dictionary are the keys of the pairs; when every pair
   * agrees with `m`, so does the dictionary.
   */
  lemma {:induction false} AssignedAgree<K, V>(pairs: seq<(K, V)>, m: map<K, V>, k: K)
    requires forall i :: 0 <= i < |pairs| ==> pairs[i].0 in m && pairs[i].1 == m[pairs[i].0]
    ensures k in Assigned(pairs) <==> exists i :: 0 <= i < |pairs| && pairs[i].0 == k
    ensures k in Assigned(pairs) ==> Assigned(pairs)[k] == m[k]
  {
    if pairs != [] {
      var n := |pairs| - 1;
      var front := pairs[..n];
      assert forall i :: 0 <= i < |front| ==> front[i] == pairs[i];
      AssignedAgree(front, m, k);
      if k != pairs[n].0 {
        if exists i :: 0 <= i < |pairs| && pairs[i].0 == k {
          var i :| 0 <= i < |pairs| && pairs[i].0 == k;
          assert front[i].0 == k;
        }
        if exists i :: 0 <= i < |front| && front[i].0 == k {
          var i :| 0 <= i < |front| && front[i].0 == k;
          assert pairs[i].0 == k;
        }
      }
    }
  }

  /** Assigning pairs that agree with `m` and name every key of `m` builds `m`. */
  lemma AssignedIs<K, V>(pairs: seq<(K, V)>, m: map<K, V>)
    requires forall i :: 0 <= i < |pairs| ==> pairs[i].0 in m && pairs[i].1 == m[pairs[i].0]
    requires forall k :: k in m ==> exists i :: 0 <= i < |pairs| && pairs[i].0 == k
    ensures Assigned(pairs) == m
  {
    var d := Assigned(pairs);
    forall k ensures k in d <==> k in m {
      AssignedAgree(pairs, m, k);
      if k in d {
        var i :| 0 <= i < |pairs| && pairs[i].0 == k;
      }
    }
    SameKeys(d, m);
    forall k | k in m ensures d[k] == m[k] {
      AssignedAgree(pairs, m, k);
    }
  }

  /** Two maps with the same keys have the same key set. */
  lemma SameKeys<K, V>(d: map<K, V>, m: map<K, V>)
    requires forall k :: k in d <==> k in m
    ensures d.Keys == m.Keys
  {
  }

  /** The pieces `f(x)` of the elements of `s`, one after the other. */
  function FlatMap<T, U>(s: seq<T>, f: T -> seq<U>): seq<U>
  {
    if s == [] then [] else FlatMap(s[..|s| - 1], f) + f(s[|s| - 1])
  }

  lemma FlatMapStep<T, U>(s: seq<T>, f: T -> seq<U>, j: nat)
    requires j < |s|
    ensures FlatMap(s[..j + 1], f) == FlatMap(s[..j], f) + f(s[j])
  {
    assert s[..j + 1][..j] == s[..j];
  }

  /** An element is in the flattened list iff some piece holds it. */
  lemma {:induction false} FlatMapMember<T, U>(s: seq<T>, f: T -> seq<U>, x: U)
    ensures x in FlatMap(s, f) <==> exists i :: 0 <= i < |s| && x in f(s[i])
  {
    if s != [] {
      var front := s[..|s| - 1];
      FlatMapMember(front, f, x);
      assert forall i :: 0 <= i < |front| ==> front[i] == s[i];
    }
  }

  /** Elements that all give empty pieces flatten to nothing. */
  lemma {:induction false} FlatMapEmpty<T, U>(s: seq<T>, f: T -> seq<U>)
    requires forall i :: 0 <= i < |s| ==> f(s[i]) == []
    ensures FlatMap(s, f) == []
  {
    if s != [] {
      var front := s[..|s| - 1];
      assert forall i :: 0 <= i < |front| ==> front[i] == s[i];
      FlatMapEmpty(front, f);
    }
  }

  lemma {:induction false} FlatMapAppend<T, U>(a: seq<T>, b: seq<T>, f: T -> seq<U>)
    ensures FlatMap(a + b, f) == FlatMap(a, f) + FlatMap(b, f)
    decreases |b|
  {
    if b == [] {
      assert a + b == a;
    } else {
      var front := b[..|b| - 1];
      assert (a + b)[..|a + b| - 1] == a + front;
      FlatMapAppend(a, front, f);
    }
  }

  lemma FlatMapOne<T, U>(x: T, f: T -> seq<U>)
    ensures FlatMap([x], f) == f(x)
  {
    assert [x][..0] == [];
  }

  /** The index of the first element from `i` on that satisfies `p`, or the length. */
  function FirstWith<T>(s: seq<T>, i: nat, p: T -> bool): (r: nat)
    requires i <= |s|
    ensures i <= r <= |s|
    ensures forall k :: i <= k < r ==> !p(s[k])
    ensures r < |s| ==> p(s[r])
    decreases |s| - i
  {
    if i == |s| || p(s[i]) then i else FirstWith(s, i + 1, p)
  }

  /** Elements that each give themselves flatten to the list itself. */
  lemma {:induction false} FlatMapSingles<T>(s: seq<T>, f: T -> seq<T>)
    requires forall i :: 0 <= i < |s| ==> f(s[i]) == [s[i]]
    ensures FlatMap(s, f) == s
  {
    if s != [] {
      var front := s[..|s| - 1];
      assert forall i :: 0 <= i < |front| ==> front[i] == s[i];
      FlatMapSingles(front, f);
      assert s == front + [s[|s| - 1]];
    }
  }
}
