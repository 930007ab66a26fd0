/**
 * Python's `sorted` with a key, modelled as a stable insertion sort under a
 * total preorder `le` ("may come before"): the result is a permutation of
 * the input, ordered by `le`, and elements `le` cannot tell apart keep
 * their input order.
 */
module Sorting {
  /** `le` is total and transitive. */
  ghost predicate TotalPreorder<T(!new)>(le: (T, T) -> bool)
  {
    (forall a, b :: le(a, b) || le(b, a)) &&
    (forall a, b, c :: le(a, b) && le(b, c) ==> le(a, c))
  }

  predicate SortedBy<T>(s: seq<T>, le: (T, T) -> bool)
  {
    forall i, j :: 0 <= i < j < |s| ==> le(s[i], s[j])
  }

  /** `a` and `b` are tied under `le`. */
  predicate Tied<T>(le: (T, T) -> bool, a: T, b: T)
  {
    le(a, b) && le(b, a)
  }

  /** The elements satisfying `p`, in order. */
  function Filter<T>(s: seq<T>, p: T -> bool): seq<T>
  {
    if s == [] then [] else (if p(s[0]) then [s[0]] else []) + Filter(s[1..], p)
  }

  lemma {:induction false} FilterAppend<T>(a: seq<T>, b: seq<T>, p: T -> bool)
    ensures Filter(a + b, p) == Filter(a, p) + Filter(b, p)
  {
    if a != [] {
      assert (a + b)[0] == a[0] && (a + b)[1..] == a[1..] + b;
      FilterAppend(a[1..], b, p);
    } else {
      assert a + b == b;
    }
  }

  lemma {:induction false} FilterNone<T>(s: seq<T>, p: T -> bool)
    requires forall k :: 0 <= k < |s| ==> !p(s[k])
    ensures Filter(s, p) == []
  {
    if s != [] {
      assert forall k :: 0 <= k < |s[1..]| ==> s[1..][k] == s[k + 1];
      FilterNone(s[1..], p);
    }
  }

  /** The filtered list holds exactly the elements that satisfy `p`. */
  lemma {:induction false} FilterMember<T>(s: seq<T>, p: T -> bool, x: T)
    ensures x in Filter(s, p) <==> x in s && p(x)
  {
    if s != [] {
      FilterMember(s[1..], p, x);
      assert s == [s[0]] + s[1..];
    }
  }

  /** Filtering a list without repetitions gives one without repetitions. */
  lemma {:induction false} FilterDistinct<T>(s: seq<T>, p: T -> bool)
    requires forall i, j :: 0 <= i < j < |s| ==> s[i] != s[j]
    ensures var r := Filter(s, p); forall i, j :: 0 <= i < j < |r| ==> r[i] != r[j]
  {
    if s != [] {
      assert forall i, j :: 0 <= i < j < |s[1..]| ==> s[1..][i] == s[i + 1] && s[1..][j] == s[j + 1];
      FilterDistinct(s[1..], p);
      FilterMember(s[1..], p, s[0]);
      assert s[0] !in s[1..];
    }
  }

  /** Filtering one more element of a prefix. */
  lemma FilterStep<T>(s: seq<T>, i: nat, p: T -> bool)
    requires i < |s|
    ensures Filter(s[..i + 1], p) == Filter(s[..i], p) + if p(s[i]) then [s[i]] else []
  {
    assert s[..i + 1] == s[..i] + [s[i]];
    FilterAppend(s[..i], [s[i]], p);
    assert Filter([s[i]], p) == if p(s[i]) then [s[i]] else [];
  }

  /** A filter every element passes keeps the whole list. */
  lemma {:induction false} FilterAll<T>(s: seq<T>, p: T -> bool)
    requires forall k :: 0 <= k < |s| ==> p(s[k])
    ensures Filter(s, p) == s
  {
    if s != [] {
      assert forall k :: 0 <= k < |s[1..]| ==> s[1..][k] == s[k + 1];
      FilterAll(s[1..], p);
    }
  }

  /** The loop that appends the elements satisfying `p` to a list, in order. */
  method FilterLoop<T>(s: seq<T>, p: T -> bool) returns (r: seq<T>)
    ensures r == Filter(s, p)
  {
    r := [];
    for i: nat := 0 to |s|
      invariant r == Filter(s[..i], p)
    {
      FilterStep(s, i, p);
      if p(s[i]) {
        r := r + [s[i]];
      }
    }
    assert s[..|s|] == s;
  }

  /** Put `x` after every leading element that may come before it. */
  function Insert<T>(r: seq<T>, x: T, le: (T, T) -> bool): seq<T>
  {
    if r == [] then [x]
    else if le(r[0], x) then [r[0]] + Insert(r[1..], x, le)
    else [x] + r
  }

  /** `sorted(s, key=...)`: each element in turn inserted into the sorted front. */
  function SortBy<T>(s: seq<T>, le: (T, T) -> bool): seq<T>
  {
    if s == [] then [] else Insert(SortBy(s[..|s| - 1], le), s[|s| - 1], le)
  }

  lemma {:induction false} InsertPerm<T>(r: seq<T>, x: T, le: (T, T) -> bool)
    ensures multiset(Insert(r, x, le)) == multiset(r) + multiset{x}
  {
    if r != [] && le(r[0], x) {
      InsertPerm(r[1..], x, le);
      assert r == [r[0]] + r[1..];
    }
  }

  lemma {:induction false} InsertSorted<T(!new)>(r: seq<T>, x: T, le: (T, T) -> bool)
    requires TotalPreorder(le) && SortedBy(r, le)
    ensures SortedBy(Insert(r, x, le), le)
  {
    if r != [] {
      var tail := r[1..];
      SortedTail(r, le);
      if le(r[0], x) {
        InsertSorted(tail, x, le);
        InsertPerm(tail, x, le);
        var t := Insert(tail, x, le);
        forall j | 0 <= j < |t| ensures le(r[0], t[j]) {
          assert t[j] in multiset(t);
          if t[j] != x {
            assert t[j] in multiset(tail);
            var k :| 0 <= k < |tail| && tail[k] == t[j];
            assert r[k + 1] == t[j];
          }
        }
        SortedCons(r[0], t, le);
      } else {
        assert le(x, r[0]);
        forall j | 0 <= j < |r| ensures le(x, r[j]) {
          assert le(r[0], r[j]) || j == 0;
        }
        SortedCons(x, r, le);
      }
    }
  }

  /** An element that may come before every element of a sorted list can go in front of it. */
  lemma SortedCons<T>(x: T, r: seq<T>, le: (T, T) -> bool)
    requires SortedBy(r, le) && forall j :: 0 <= j < |r| ==> le(x, r[j])
    ensures SortedBy([x] + r, le)
  {
    var res := [x] + r;
    forall i, j | 0 <= i < j < |res| ensures le(res[i], res[j]) {
      assert res[j] == r[j - 1];
      if i > 0 {
        assert res[i] == r[i - 1];
      }
    }
  }

  /**
   * Among the elements tied with `e`, the one inserted lands last, and the
   * others keep their order.
   */
  lemma {:induction false} InsertStable<T(!new)>(r: seq<T>, x: T, le: (T, T) -> bool, e: T)
    requires TotalPreorder(le) && SortedBy(r, le)
    ensures Filter(Insert(r, x, le), (y: T) => Tied(le, y, e)) ==
      Filter(r, (y: T) => Tied(le, y, e)) + (if Tied(le, x, e) then [x] else [])
  {
    var p := (y: T) => Tied(le, y, e);
    if r != [] {
      if le(r[0], x) {
        var tail := r[1..];
        assert SortedBy(tail, le) by {
          forall i, j | 0 <= i < j < |tail| ensures le(tail[i], tail[j]) {
            assert tail[i] == r[i + 1] && tail[j] == r[j + 1];
          }
        }
        InsertStable(tail, x, le, e);
        FilterAppend([r[0]], Insert(tail, x, le), p);
        FilterAppend([r[0]], tail, p);
        assert [r[0]] + tail == r;
      } else {
        FilterAppend([x], r, p);
        if Tied(le, x, e) {
          forall k | 0 <= k < |r| ensures !p(r[k]) {
            assert le(r[0], r[k]);
          }
          FilterNone(r, p);
          assert Filter([x], p) == [x];
        } else {
          assert Filter([x], p) == [];
        }
      }
    }
  }

  /** The sort is a permutation of its input, ordered by `le`, and stable. */
  lemma {:induction false} SortByMeaning<T(!new)>(s: seq<T>, le: (T, T) -> bool, e: T)
    requires TotalPreorder(le)
    ensures multiset(SortBy(s, le)) == multiset(s)
    ensures SortedBy(SortBy(s, le), le)
    ensures Filter(SortBy(s, le), (y: T) => Tied(le, y, e)) == Filter(s, (y: T) => Tied(le, y, e))
  {
    SortByPerm(s, le);
    SortBySorted(s, le);
    SortByStable(s, le, e);
  }

  lemma {:induction false} SortByPerm<T>(s: seq<T>, le: (T, T) -> bool)
    ensures multiset(SortBy(s, le)) == multiset(s)
  {
    if s != [] {
      var front := s[..|s| - 1];
      SortByPerm(front, le);
      InsertPerm(SortBy(front, le), s[|s| - 1], le);
      assert s == front + [s[|s| - 1]];
    }
  }

  lemma {:induction false} SortBySorted<T(!new)>(s: seq<T>, le: (T, T) -> bool)
    requires TotalPreorder(le)
    ensures SortedBy(SortBy(s, le), le)
  {
    if s != [] {
      SortBySorted(s[..|s| - 1], le);
      InsertSorted(SortBy(s[..|s| - 1], le), s[|s| - 1], le);
    }
  }

  lemma {:induction false} SortByStable<T(!new)>(s: seq<T>, le: (T, T) -> bool, e: T)
    requires TotalPreorder(le)
    ensures Filter(SortBy(s, le), (y: T) => Tied(le, y, e)) == Filter(s, (y: T) => Tied(le, y, e))
  {
    if s != [] {
      var front := s[..|s| - 1];
      var x := s[|s| - 1];
      SortBySorted(front, le);
      SortByStable(front, le, e);
      InsertStable(SortBy(front, le), x, le, e);
      assert s == front + [x];
      FilterAppend(front, [x], (y: T) => Tied(le, y, e));
    }
  }

  /** In a sorted list, everything up to `k` may come before everything after it. */
  lemma TopComesFirst<T>(r: seq<T>, le: (T, T) -> bool, k: nat, a: T, b: T)
    requires SortedBy(r, le) && k <= |r|
    requires a in r[..k] && b in r[k..]
    ensures le(a, b)
  {
    var i :| 0 <= i < k && r[..k][i] == a;
    var j :| 0 <= j < |r| - k && r[k..][j] == b;
    assert r[i] == a && r[k + j] == b;
  }

  /** Under an order that ties no two different elements, a list has one sorted permutation. */
  lemma {:induction false} SortedUnique<T(!new)>(a: seq<T>, b: seq<T>, le: (T, T) -> bool)
    requires multiset(a) == multiset(b) && SortedBy(a, le) && SortedBy(b, le)
    requires forall x, y :: le(x, y) && le(y, x) ==> x == y
    ensures a == b
  {
    if a == [] {
      assert |b| == |multiset(b)| == 0;
    } else {
      assert |b| == |multiset(b)| == |a|;
      SortedHeads(a, b, le);
      TailMultiset(a);
      TailMultiset(b);
      SortedTail(a, le);
      SortedTail(b, le);
      SortedUnique(a[1..], b[1..], le);
      assert a == [a[0]] + a[1..] && b == [b[0]] + b[1..];
    }
  }

  lemma SortedHeads<T(!new)>(a: seq<T>, b: seq<T>, le: (T, T) -> bool)
    requires multiset(a) == multiset(b) && SortedBy(a, le) && SortedBy(b, le) && a != [] && b != []
    requires forall x, y :: le(x, y) && le(y, x) ==> x == y
    ensures a[0] == b[0]
  {
    assert a[0] in multiset(b) && b[0] in multiset(a);
    var i :| 0 <= i < |a| && a[i] == b[0];
    var j :| 0 <= j < |b| && b[j] == a[0];
    if i != 0 && j != 0 {
      assert le(a[0], a[i]) && le(b[0], b[j]);
    }
  }

  lemma TailMultiset<T>(a: seq<T>)
    requires a != []
    ensures multiset(a[1..]) == multiset(a) - multiset{a[0]}
  {
    assert a == [a[0]] + a[1..];
  }

  lemma SortedTail<T>(a: seq<T>, le: (T, T) -> bool)
    requires a != [] && SortedBy(a, le)
    ensures SortedBy(a[1..], le)
  {
    assert forall k :: 0 <= k < |a[1..]| ==> a[1..][k] == a[k + 1];
  }
}
