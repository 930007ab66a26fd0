/**
 * The `defaultdict(set)` that maps a genre to the ids of the tracks filed
 * under it, as filled by `process_tracks_batch_optimized` and the other
 * bucketing passes: adding a track id under each of a track's genres.
 * A key exists exactly when some track was added under it.
 */
module Bucketing {
  import opened Records
  import opened Lists

  /** Genre to set of track ids. */
  type Buckets = map<string, set<string>>

  /** The bucket of `g`, or the empty set a `defaultdict(set)` would create. */
  function BucketOf(b: Buckets, g: string): set<string>
  {
    if g in b then b[g] else {}
  }

  /** `genre_tracks[g].add(id)` for every `g` in `keys`. */
  function AddToAll(b: Buckets, keys: set<string>, id: string): (r: Buckets)
    ensures r.Keys == b.Keys + keys
  {
    map g | g in b.Keys + keys :: BucketOf(b, g) + (if g in keys then {id} else {})
  }

  /** Adding under no genre changes nothing. */
  lemma AddToNone(b: Buckets, id: string)
    ensures AddToAll(b, {}, id) == b
  {
    var r := AddToAll(b, {}, id);
    forall g | g in r ensures r[g] == b[g] {
      assert r[g] == BucketOf(b, g) + {};
    }
    assert r.Keys == b.Keys;
  }

  /** Adding under one genre is one dictionary update. */
  lemma AddToOne(b: Buckets, g: string, id: string)
    ensures AddToAll(b, {g}, id) == b[g := BucketOf(b, g) + {id}]
  {
    var r := AddToAll(b, {g}, id);
    var u := b[g := BucketOf(b, g) + {id}];
    forall x | x in r ensures r[x] == u[x] {
      if x != g {
        assert r[x] == BucketOf(b, x) + {};
      }
    }
    assert r.Keys == u.Keys;
  }

  /** What `AddToAll` is, key by key: the keys gain `keys`, and exactly their buckets gain `id`. */
  predicate AddedToAll(r: Buckets, b: Buckets, keys: set<string>, id: string)
  {
    r.Keys == b.Keys + keys &&
    forall g :: g in r ==> r[g] == BucketOf(b, g) + (if g in keys then {id} else {})
  }

  lemma AddedToAllIs(r: Buckets, b: Buckets, keys: set<string>, id: string)
    requires AddedToAll(r, b, keys, id)
    ensures r == AddToAll(b, keys, id)
  {
    var s := AddToAll(b, keys, id);
    forall g | g in r ensures r[g] == s[g] {
    }
    assert r.Keys == s.Keys;
  }

  lemma AddToAllAdded(b: Buckets, keys: set<string>, id: string)
    ensures AddedToAll(AddToAll(b, keys, id), b, keys, id)
  {
  }

  /** Adding under `a` and then under `c` is adding under `a + c`: the order of the genres does not matter. */
  lemma AddToAllTwice(b: Buckets, a: set<string>, c: set<string>, id: string)
    ensures AddToAll(AddToAll(b, a, id), c, id) == AddToAll(b, a + c, id)
  {
    var r1 := AddToAll(b, a, id);
    var r2 := AddToAll(r1, c, id);
    AddToAllAdded(b, a, id);
    AddToAllAdded(r1, c, id);
    forall g | g in r2 ensures r2[g] == BucketOf(b, g) + (if g in a + c then {id} else {}) {
      if g !in r1 {
        assert BucketOf(r1, g) == {} && BucketOf(b, g) == {};
      }
    }
    AddedToAllIs(r2, b, a + c, id);
  }

  /** One more `genre_tracks[g].add(id)` extends the genres added under by `g`. */
  lemma AddedStep(r: Buckets, b: Buckets, keys: set<string>, id: string, g: string)
    requires AddedToAll(r, b, keys, id)
    ensures AddedToAll(r[g := BucketOf(r, g) + {id}], b, keys + {g}, id)
  {
  }

  /** `genre_tracks[g].add(id)`. */
  method AddOne(r: Buckets, g: string, id: string, ghost b: Buckets, ghost done: set<string>) returns (r': Buckets)
    requires AddedToAll(r, b, done, id)
    ensures AddedToAll(r', b, done + {g}, id)
  {
    AddedStep(r, b, done, id, g);
    r' := r[g := BucketOf(r, g) + {id}];
  }

  /** The loop over a set of genres: `for genre in genres: genre_tracks[genre].add(track_id)`. */
  method AddTrackToBuckets(b: Buckets, keys: set<string>, id: string) returns (r: Buckets)
    ensures r == AddToAll(b, keys, id)
  {
    r := b;
    var rest := keys;
    ghost var done := {};
    while rest != {}
      invariant done + rest == keys
      invariant AddedToAll(r, b, done, id)
      decreases rest
    {
      var g :| g in rest;
      r := AddOne(r, g, id, b, done);
      done := done + {g};
      rest := rest - {g};
    }
    AddedToAllIs(r, b, done, id);
  }

  /** The loop over a list of genres, as in `for normalized_genre in normalized_genres`. */
  method AddTrackToEach(b: Buckets, names: seq<string>, id: string) returns (r: Buckets)
    ensures r == AddToAll(b, Elems(names), id)
  {
    r := b;
    assert Elems(names[..0]) == {};
    for j: nat := 0 to |names|
      invariant AddedToAll(r, b, Elems(names[..j]), id)
    {
      AddedStep(r, b, Elems(names[..j]), id, names[j]);
      ElemsStep(names, j);
      r := r[names[j] := BucketOf(r, names[j]) + {id}];
    }
    assert names[..|names|] == names;
    AddedToAllIs(r, b, Elems(names), id);
  }

  /** Every non-null track in order, its id added under each genre `genresOf` gives it. */
  function Bucketed(tracks: seq<Item>, genresOf: Track -> set<string>): Buckets
  {
    if tracks == [] then map[]
    else
      var b := Bucketed(tracks[..|tracks| - 1], genresOf);
      match tracks[|tracks| - 1]
        case None => b
        case Some(t) => AddToAll(b, genresOf(t), t.id)
  }

  lemma BucketedStep(tracks: seq<Item>, n: nat, genresOf: Track -> set<string>)
    requires n < |tracks|
    ensures Bucketed(tracks[..n + 1], genresOf) ==
      match tracks[n]
        case None => Bucketed(tracks[..n], genresOf)
        case Some(t) => AddToAll(Bucketed(tracks[..n], genresOf), genresOf(t), t.id)
  {
    assert tracks[..n + 1][..n] == tracks[..n];
  }

  /**
   * A track id is in the bucket of `g` iff some non-null track with that id
   * has `g` among its genres; null tracks are skipped.
   */
  lemma {:induction false} BucketedMember(tracks: seq<Item>, genresOf: Track -> set<string>, g: string, id: string)
    ensures (g in Bucketed(tracks, genresOf) && id in Bucketed(tracks, genresOf)[g]) <==>
      exists k :: 0 <= k < |tracks| && tracks[k].Some? && tracks[k].value.id == id && g in genresOf(tracks[k].value)
  {
    if tracks != [] {
      var front := tracks[..|tracks| - 1];
      BucketedMember(front, genresOf, g, id);
      assert forall k :: 0 <= k < |front| ==> front[k] == tracks[k];
    }
  }

  /** A genre has a bucket iff some non-null track has it: no bucket is created empty. */
  lemma {:induction false} BucketedKeys(tracks: seq<Item>, genresOf: Track -> set<string>, g: string)
    ensures g in Bucketed(tracks, genresOf) <==>
      exists k :: 0 <= k < |tracks| && tracks[k].Some? && g in genresOf(tracks[k].value)
    ensures g in Bucketed(tracks, genresOf) ==> Bucketed(tracks, genresOf)[g] != {}
  {
    if tracks != [] {
      var front := tracks[..|tracks| - 1];
      BucketedKeys(front, genresOf, g);
      assert forall k :: 0 <= k < |front| ==> front[k] == tracks[k];
      match tracks[|tracks| - 1] {
        case None =>
        case Some(t) =>
          if g in genresOf(t) {
            assert t.id in Bucketed(tracks, genresOf)[g];
          }
      }
    }
  }

  /** Two genre assignments that agree on the listed tracks give the same buckets. */
  lemma {:induction false} BucketedCongruent(tracks: seq<Item>, f: Track -> set<string>, h: Track -> set<string>)
    requires forall k :: 0 <= k < |tracks| && tracks[k].Some? ==> f(tracks[k].value) == h(tracks[k].value)
    ensures Bucketed(tracks, f) == Bucketed(tracks, h)
  {
    if tracks != [] {
      var front := tracks[..|tracks| - 1];
      assert forall k :: 0 <= k < |front| ==> front[k] == tracks[k];
      BucketedCongruent(front, f, h);
    }
  }
}
