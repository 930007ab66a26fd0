/**
 * The loop the cache writers share (controller/Artist_Cacher.py,
 * controller/Update_Cache.py, Update_Cache.py and `create_genre_playlists`
 * in both Playlist_Tools files): walk a list of artist ids in slices of 50;
 * ask the catalog for each slice at once and write one record per non-null
 * artist of the response, under that artist's own id; when the batch
 * request raises, ask for each id of the slice alone and write one record per
 * answer, under the requested id, skipping the ids whose request raises.
 *
 * Every write is a `Step`; each script supplies the record it builds from
 * the cache as it stands and the step (`update`).
 */
module CacheRefresh {
  import opened Wrappers
  import opened Lists
  import opened Records
  import opened SpotifyClient

  /** `range(0, len(ids), 50)`. */
  const SliceSize: nat := 50

  /**
   * The catalog: `sp.artists(ids)['artists']` (one entry per id, `null` for
   * an unknown one) or `None` when the request raises; a single request
   * gives the artist or `None` when it raises.
   */
  datatype Catalog = Catalog(many: seq<string> -> Option<seq<Option<Artist>>>, one: string -> Option<Artist>)

  /** One record write: the key written, the artist it is built from, and whether it came from a batch response. */
  datatype Step = Step(key: string, artist: Artist, batch: bool)

  /** `for artist in artists['artists']: if artist: ...`: one write per non-null artist, under its own id. */
  function BatchSteps(response: seq<Option<Artist>>): (r: seq<Step>)
    ensures |r| <= |response|
  {
    if response == [] then []
    else
      var front := BatchSteps(response[..|response| - 1]);
      match response[|response| - 1]
        case Some(a) => front + [Step(a.id, a, true)]
        case None => front
  }

  lemma {:induction false} BatchStepsMember(response: seq<Option<Artist>>, s: Step)
    ensures s in BatchSteps(response) <==> s.batch && s.key == s.artist.id && Some(s.artist) in response
  {
    if response != [] {
      var front := response[..|response| - 1];
      BatchStepsMember(front, s);
      assert response == front + [response[|response| - 1]];
    }
  }

  function ManySteps(cat: Catalog): seq<string> -> Option<seq<Step>>
  {
    (slice: seq<string>) =>
      match cat.many(slice)
        case Some(response) => Some(BatchSteps(response))
        case None => None
  }

  function OneStep(cat: Catalog): string -> Option<Step>
  {
    (id: string) =>
      match cat.one(id)
        case Some(a) => Some(Step(id, a, false))
        case None => None
  }

  /** The writes of the whole walk, in order. */
  function Steps(ids: seq<string>, cat: Catalog): seq<Step>
  {
    FetchedFrom(ids, SliceSize, ManySteps(cat), OneStep(cat))
  }

  /** `s` is a write the slice produces: from its batch response, or, when that raises, from a single request of one of its ids. */
  predicate InSlice(slice: seq<string>, cat: Catalog, s: Step)
  {
    match cat.many(slice)
      case Some(response) => s.batch && s.key == s.artist.id && Some(s.artist) in response
      case None => !s.batch && s.key in slice && cat.one(s.key) == Some(s.artist)
  }

  /** A write happens iff some slice of `Chunks(ids, 50)` produces it. */
  lemma StepsMember(ids: seq<string>, cat: Catalog, s: Step)
    ensures s in Steps(ids, cat) <==>
      exists k :: 0 <= k < |Chunks(ids, SliceSize)| && InSlice(Chunks(ids, SliceSize)[k], cat, s)
  {
    var cs := Chunks(ids, SliceSize);
    FetchedMember(ids, SliceSize, ManySteps(cat), OneStep(cat), s);
    forall k | 0 <= k < |cs|
      ensures ((ManySteps(cat)(cs[k]).Some? && s in ManySteps(cat)(cs[k]).value) ||
               (ManySteps(cat)(cs[k]).None? &&
                exists i :: 0 <= i < |cs[k]| && OneStep(cat)(cs[k][i]) == Some(s)))
              <==> InSlice(cs[k], cat, s)
    {
      match cat.many(cs[k]) {
        case Some(response) =>
          BatchStepsMember(response, s);
        case None =>
          if InSlice(cs[k], cat, s) {
            var i :| 0 <= i < |cs[k]| && cs[k][i] == s.key;
            assert OneStep(cat)(cs[k][i]) == Some(s);
          }
      }
    }
  }

  // ----- applying the writes -----

  /** The cache after the writes: each step sets its key to the record built from the cache so far. */
  function Apply(cache: Cache, steps: seq<Step>, update: (Cache, Step) -> Record): Cache
  {
    if steps == [] then cache
    else
      var c := Apply(cache, steps[..|steps| - 1], update);
      var s := steps[|steps| - 1];
      c[s.key := update(c, s)]
  }

  lemma ApplySnoc(cache: Cache, steps: seq<Step>, s: Step, update: (Cache, Step) -> Record)
    ensures Apply(cache, steps + [s], update) == Apply(cache, steps, update)[s.key := update(Apply(cache, steps, update), s)]
  {
    assert (steps + [s])[..|steps|] == steps;
  }

  lemma {:induction false} ApplyAppend(cache: Cache, a: seq<Step>, b: seq<Step>, update: (Cache, Step) -> Record)
    ensures Apply(cache, a + b, update) == Apply(Apply(cache, a, update), b, update)
    decreases |b|
  {
    if b == [] {
      assert a + b == a;
    } else {
      var b' := b[..|b| - 1];
      assert a + b == (a + b') + [b[|b| - 1]];
      ApplyAppend(cache, a, b', update);
      ApplySnoc(cache, a + b', b[|b| - 1], update);
      assert b == b' + [b[|b| - 1]];
      ApplySnoc(Apply(cache, a, update), b', b[|b| - 1], update);
    }
  }

  /** The keys afterwards are the old keys and the keys written. */
  lemma {:induction false} ApplyKeys(cache: Cache, steps: seq<Step>, update: (Cache, Step) -> Record, k: string)
    ensures k in Apply(cache, steps, update) <==> k in cache || exists i :: 0 <= i < |steps| && steps[i].key == k
  {
    if steps != [] {
      var front := steps[..|steps| - 1];
      ApplyKeys(cache, front, update, k);
      assert forall i :: 0 <= i < |front| ==> front[i] == steps[i];
    }
  }

  /** A key no step writes keeps its record, or stays absent. */
  lemma {:induction false} ApplyOutside(cache: Cache, steps: seq<Step>, update: (Cache, Step) -> Record, k: string)
    requires forall i :: 0 <= i < |steps| ==> steps[i].key != k
    ensures k in Apply(cache, steps, update) <==> k in cache
    ensures k in cache ==> Apply(cache, steps, update)[k] == cache[k]
  {
    if steps != [] {
      var front := steps[..|steps| - 1];
      assert forall i :: 0 <= i < |front| ==> front[i] == steps[i];
      ApplyOutside(cache, front, update, k);
    }
  }

  /** A written key holds the record of its last write, built from the cache as it stood before that write. */
  lemma ApplyLast(cache: Cache, steps: seq<Step>, update: (Cache, Step) -> Record, j: nat)
    requires j < |steps|
    requires forall i :: j < i < |steps| ==> steps[i].key != steps[j].key
    ensures steps[j].key in Apply(cache, steps, update)
    ensures Apply(cache, steps, update)[steps[j].key] == update(Apply(cache, steps[..j], update), steps[j])
  {
    var after := steps[j + 1..];
    assert steps == steps[..j] + [steps[j]] + after;
    ApplyAppend(cache, steps[..j] + [steps[j]], after, update);
    ApplySnoc(cache, steps[..j], steps[j], update);
    ApplyOutside(Apply(cache, steps[..j] + [steps[j]], update), after, update, steps[j].key);
  }

  /** When every record an update builds satisfies `p`, so does every written key's record. */
  lemma {:induction false} ApplyWritten(cache: Cache, steps: seq<Step>, update: (Cache, Step) -> Record, p: Record -> bool, k: string)
    requires forall c, s :: p(update(c, s))
    requires exists i :: 0 <= i < |steps| && steps[i].key == k
    ensures k in Apply(cache, steps, update) && p(Apply(cache, steps, update)[k])
  {
    var front := steps[..|steps| - 1];
    var last := steps[|steps| - 1];
    if last.key != k {
      var i :| 0 <= i < |steps| && steps[i].key == k;
      assert front[i].key == k;
      ApplyWritten(cache, front, update, p, k);
    }
  }

  /** A property of caches that every write keeps holds after all the writes. */
  lemma {:induction false} ApplyInvariant(cache: Cache, steps: seq<Step>, update: (Cache, Step) -> Record, inv: Cache -> bool)
    requires inv(cache)
    requires forall c: Cache, s: Step :: inv(c) ==> inv(c[s.key := update(c, s)])
    ensures inv(Apply(cache, steps, update))
  {
    if steps != [] {
      ApplyInvariant(cache, steps[..|steps| - 1], update, inv);
    }
  }

  // ----- the catalog answers for the ids asked -----

  /** A batch response holds only artists whose ids were asked for. */
  ghost predicate Faithful(cat: Catalog)
  {
    forall slice, a :: cat.many(slice).Some? && Some(a) in cat.many(slice).value ==> a.id in slice
  }

  /** With a faithful catalog every key written is one of the ids walked. */
  lemma StepKeysWithin(ids: seq<string>, cat: Catalog, s: Step)
    requires Faithful(cat) && s in Steps(ids, cat)
    ensures s.key in ids
  {
    var cs := Chunks(ids, SliceSize);
    StepsMember(ids, cat, s);
    var k :| 0 <= k < |cs| && InSlice(cs[k], cat, s);
    assert s.key in cs[k];
    FlattenMember(cs, s.key);
  }

  /** When every batch request raises and every single request answers, every id walked is written. */
  lemma EveryIdWritten(ids: seq<string>, cat: Catalog, id: string)
    requires forall b :: cat.many(b).None?
    requires forall x :: cat.one(x).Some?
    requires id in ids
    ensures Step(id, cat.one(id).value, false) in Steps(ids, cat)
  {
    var cs := Chunks(ids, SliceSize);
    FlattenMember(cs, id);
    var k :| 0 <= k < |cs| && id in cs[k];
    var s := Step(id, cat.one(id).value, false);
    assert cat.many(cs[k]).None?;
    assert InSlice(cs[k], cat, s);
    StepsMember(ids, cat, s);
    assert exists k' :: 0 <= k' < |cs| && InSlice(cs[k'], cat, s);
    assert s in Steps(ids, cat);
  }

  // ----- the loops -----

  /** The key a write sets. */
  function KeyOf(s: Step): string
  {
    s.key
  }

  /** `artist_cache[artist_id] = ...` for one more write, counted and keyed. */
  method WriteStep(c0: Cache, steps: seq<Step>, s: Step, update: (Cache, Step) -> Record,
                   c: Cache, n: nat, keys: seq<string>)
    returns (c': Cache, n': nat, keys': seq<string>)
    requires c == Apply(c0, steps, update) && n == |steps| && keys == Keys(steps, KeyOf)
    ensures c' == Apply(c0, steps + [s], update) && n' == |steps + [s]| && keys' == Keys(steps + [s], KeyOf)
  {
    ApplySnoc(c0, steps, s, update);
    KeysSnoc(steps, s, KeyOf);
    c' := c[s.key := update(c, s)];
    n' := n + 1;
    keys' := keys + [s.key];
  }

  lemma BatchStepsStep(response: seq<Option<Artist>>, j: nat)
    requires j < |response|
    ensures BatchSteps(response[..j + 1]) ==
      match response[j]
        case Some(a) => BatchSteps(response[..j]) + [Step(a.id, a, true)]
        case None => BatchSteps(response[..j])
  {
    assert response[..j + 1][..j] == response[..j];
  }

  lemma SurvivorsStep<T>(slice: seq<string>, j: nat, one: string -> Option<T>)
    requires j < |slice|
    ensures Survivors(slice[..j + 1], one) ==
      match one(slice[j])
        case Some(x) => Survivors(slice[..j], one) + [x]
        case None => Survivors(slice[..j], one)
  {
    assert slice[..j + 1][..j] == slice[..j];
  }

  /** The writes of one batch response. */
  method WriteBatch(c0: Cache, response: seq<Option<Artist>>, update: (Cache, Step) -> Record)
    returns (c: Cache, n: nat, keys: seq<string>)
    ensures c == Apply(c0, BatchSteps(response), update) && n == |BatchSteps(response)|
    ensures keys == Keys(BatchSteps(response), KeyOf)
  {
    c, n, keys := c0, 0, [];
    for j: nat := 0 to |response|
      invariant c == Apply(c0, BatchSteps(response[..j]), update) && n == |BatchSteps(response[..j])|
      invariant keys == Keys(BatchSteps(response[..j]), KeyOf)
    {
      BatchStepsStep(response, j);
      match response[j] {
        case Some(artist) =>
          c, n, keys := WriteStep(c0, BatchSteps(response[..j]), Step(artist.id, artist, true), update, c, n, keys);
        case None =>
      }
    }
    assert response[..|response|] == response;
  }

  /** The writes of the single requests of a slice whose batch request raised. */
  method WriteFallback(c0: Cache, slice: seq<string>, cat: Catalog, update: (Cache, Step) -> Record)
    returns (c: Cache, n: nat, keys: seq<string>)
    ensures c == Apply(c0, Survivors(slice, OneStep(cat)), update) && n == |Survivors(slice, OneStep(cat))|
    ensures keys == Keys(Survivors(slice, OneStep(cat)), KeyOf)
  {
    c, n, keys := c0, 0, [];
    for j: nat := 0 to |slice|
      invariant c == Apply(c0, Survivors(slice[..j], OneStep(cat)), update) && n == |Survivors(slice[..j], OneStep(cat))|
      invariant keys == Keys(Survivors(slice[..j], OneStep(cat)), KeyOf)
    {
      var artistId := slice[j];
      SurvivorsStep(slice, j, OneStep(cat));
      match cat.one(artistId) {
        case Some(artist) =>
          c, n, keys := WriteStep(c0, Survivors(slice[..j], OneStep(cat)), Step(artistId, artist, false), update, c, n, keys);
        case None =>
      }
    }
    assert slice[..|slice|] == slice;
  }

  method WriteSlice(c0: Cache, slice: seq<string>, cat: Catalog, update: (Cache, Step) -> Record)
    returns (c: Cache, n: nat, keys: seq<string>)
    ensures c == Apply(c0, FetchSlice(slice, ManySteps(cat), OneStep(cat)), update)
    ensures n == |FetchSlice(slice, ManySteps(cat), OneStep(cat))|
    ensures keys == Keys(FetchSlice(slice, ManySteps(cat), OneStep(cat)), KeyOf)
  {
    match cat.many(slice) {
      case Some(response) =>
        c, n, keys := WriteBatch(c0, response, update);
      case None =>
        c, n, keys := WriteFallback(c0, slice, cat, update);
    }
  }

  lemma RefreshStep(cache: Cache, ids: seq<string>, i: nat, end: nat, cat: Catalog, update: (Cache, Step) -> Record, done: seq<Step>)
    requires i < |ids| && end == if i + SliceSize <= |ids| then i + SliceSize else |ids|
    requires done + FetchedFrom(ids[i..], SliceSize, ManySteps(cat), OneStep(cat)) == Steps(ids, cat)
    ensures var written := FetchSlice(ids[i..end], ManySteps(cat), OneStep(cat));
      (done + written) + FetchedFrom(ids[end..], SliceSize, ManySteps(cat), OneStep(cat)) == Steps(ids, cat) &&
      Apply(cache, done + written, update) == Apply(Apply(cache, done, update), written, update)
  {
    FetchedFromStep(ids, i, SliceSize, ManySteps(cat), OneStep(cat));
    ApplyAppend(cache, done, FetchSlice(ids[i..end], ManySteps(cat), OneStep(cat)), update);
  }

  /**
   * The walk: `c` is the cache after every write and `count` the number of
   * writes (`cache_misses`, `updated_count`).
   */
  method RefreshCache(cache: Cache, ids: seq<string>, cat: Catalog, update: (Cache, Step) -> Record)
    returns (c: Cache, count: nat, keys: seq<string>)
    ensures c == Apply(cache, Steps(ids, cat), update)
    ensures count == |Steps(ids, cat)|
    ensures keys == Keys(Steps(ids, cat), KeyOf)
  {
    c, count, keys := cache, 0, [];
    ghost var done: seq<Step> := [];
    var i := 0;
    while i < |ids|
      invariant 0 <= i <= |ids|
      invariant done + FetchedFrom(ids[i..], SliceSize, ManySteps(cat), OneStep(cat)) == Steps(ids, cat)
      invariant c == Apply(cache, done, update) && count == |done|
      invariant keys == Keys(done, KeyOf)
      decreases |ids| - i
    {
      var end := if i + SliceSize <= |ids| then i + SliceSize else |ids|;
      var batchIds := ids[i..end];
      ghost var written := FetchSlice(batchIds, ManySteps(cat), OneStep(cat));
      RefreshStep(cache, ids, i, end, cat, update, done);
      var n, k;
      c, n, k := WriteSlice(c, batchIds, cat, update);
      KeysAppend(done, written, KeyOf);
      done := done + written;
      count := count + n;
      keys := keys + k;
      i := end;
    }
    assert ids[i..] == [];
    assert done + FetchedFrom(ids[i..], SliceSize, ManySteps(cat), OneStep(cat)) == done;
  }
}
