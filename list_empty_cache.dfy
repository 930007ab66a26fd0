/**
 * List_Empty_Cache.py and controller/List_Empty_Cache.py,
 * `list_artists_without_genres`: the cached artists with an empty genre
 * list are looked up in slices of 50, and `artists_data` maps each one
 * found to `{"name": ..., "genres": []}` (a cache entry with no `country`
 * key); it is saved as JSON and as a text file of three lines per artist,
 * sorted by name. The root script asks the catalog for every name; the
 * controller takes a name the cache already has and asks only for the
 * others. A slice whose batch request raises is fetched id by id, as in
 * `CacheRefresh`. Nothing is written when no artist lacks genres.
 */
module EmptyCacheListing {
  import opened Wrappers
  import opened Text
  import opened Lists
  import opened Records
  import opened Sorting
  import opened SpotifyClient
  import opened CacheRefresh

  // ----- selection -----

  /** `not data['genres']`. */
  function WithoutGenresIn(cache: Cache): string -> bool
  {
    id => id in cache && cache[id].genres == []
  }

  /** `artists_without_genres`, in the cache's order. */
  function Selected(cache: Cache, listOf: set<string> -> seq<string>): seq<string>
  {
    Filter(listOf(cache.Keys), WithoutGenresIn(cache))
  }

  /** The selected ids are the cached artists without genres, each once. */
  lemma SelectedMeaning(cache: Cache, listOf: set<string> -> seq<string>, id: string)
    requires Enumerates(listOf) && ListsOnce(listOf)
    ensures Distinct(Selected(cache, listOf))
    ensures id in Selected(cache, listOf) <==> id in cache && cache[id].genres == []
  {
    var ids := listOf(cache.Keys);
    FilterDistinct(ids, WithoutGenresIn(cache));
    FilterMember(ids, WithoutGenresIn(cache), id);
    assert id in cache ==> id in Elems(ids);
  }

  // ----- what `artists_data` receives -----

  /** `{"name": artist_name, "genres": []}` for the artist of a write. */
  function NameOnly(): (Cache, Step) -> Record
  {
    (c: Cache, s: Step) => Record(Some(s.artist.name), [], Absent)
  }

  /** A value `artists_data` can hold: a name and no genres. */
  predicate NameOnlyEntry(r: Record)
  {
    r.name.Some? && r.genres == [] && r.country.Absent?
  }

  /** `artists_data` after the writes `steps`, starting empty. */
  function DataOf(steps: seq<Step>): Cache
  {
    Apply(map[], steps, NameOnly())
  }

  /** The artists listed are those written; each has a name and no genres. */
  lemma DataOfMeaning(steps: seq<Step>, k: string)
    ensures k in DataOf(steps) <==> exists i :: 0 <= i < |steps| && steps[i].key == k
    ensures k in DataOf(steps) ==> NameOnlyEntry(DataOf(steps)[k])
  {
    ApplyKeys(map[], steps, NameOnly(), k);
    if k in DataOf(steps) {
      ApplyWritten(map[], steps, NameOnly(), NameOnlyEntry, k);
    }
  }

  // ----- List_Empty_Cache.py: every name is asked from the catalog -----

  /** The writes of the root script: the slice walk over the selected ids. */
  function RootSteps(cache: Cache, listOf: set<string> -> seq<string>, cat: Catalog): seq<Step>
  {
    Steps(Selected(cache, listOf), cat)
  }

  /**
   * With a faithful catalog every artist listed lacks genres in the cache;
   * when every batch request raises and every single one answers, every
   * artist without genres is listed, with the name its own request gives.
   */
  lemma RootListedMeaning(cache: Cache, listOf: set<string> -> seq<string>, cat: Catalog, k: string)
    requires Enumerates(listOf) && ListsOnce(listOf)
    ensures var data := DataOf(RootSteps(cache, listOf, cat));
      (k in data ==> NameOnlyEntry(data[k])) &&
      (Faithful(cat) && k in data ==> k in cache && cache[k].genres == []) &&
      ((forall b :: cat.many(b).None?) && (forall x :: cat.one(x).Some?) && k in cache && cache[k].genres == [] ==>
        k in data && data[k].name == Some(cat.one(k).value.name))
  {
    var sel := Selected(cache, listOf);
    var steps := RootSteps(cache, listOf, cat);
    SelectedMeaning(cache, listOf, k);
    DataOfMeaning(steps, k);
    if Faithful(cat) && k in DataOf(steps) {
      var i :| 0 <= i < |steps| && steps[i].key == k;
      StepKeysWithin(sel, cat, steps[i]);
    }
    if (forall b :: cat.many(b).None?) && (forall x :: cat.one(x).Some?) && k in cache && cache[k].genres == [] {
      EveryIdWritten(sel, cat, k);
      var j :| 0 <= j < |steps| && steps[j] == Step(k, cat.one(k).value, false);
      forall i | 0 <= i < |steps| && steps[i].key == k ensures steps[i].artist.name == cat.one(k).value.name {
        StepsMember(sel, cat, steps[i]);
      }
      ApplyNamed(map[], steps, k, cat.one(k).value.name);
    }
  }

  /** A key every write of which carries the same name is listed with that name. */
  lemma {:induction false} ApplyNamed(c0: Cache, steps: seq<Step>, k: string, name: string)
    requires exists i :: 0 <= i < |steps| && steps[i].key == k
    requires forall i :: 0 <= i < |steps| && steps[i].key == k ==> steps[i].artist.name == name
    ensures var c := Apply(c0, steps, NameOnly());
      k in c && c[k] == Record(Some(name), [], Absent)
  {
    var front := steps[..|steps| - 1];
    var last := steps[|steps| - 1];
    if last.key != k {
      var i :| 0 <= i < |steps| && steps[i].key == k;
      assert front[i] == steps[i];
      assert forall i :: 0 <= i < |front| ==> front[i] == steps[i];
      ApplyNamed(c0, front, k, name);
    }
  }

  /** The slice loop of the root script, starting from an empty `artists_data`. */
  method RootData(cache: Cache, listOf: set<string> -> seq<string>, cat: Catalog) returns (data: Cache, keys: seq<string>)
    ensures data == DataOf(RootSteps(cache, listOf, cat))
    ensures keys == Keys(RootSteps(cache, listOf, cat), KeyOf)
  {
    var count;
    data, count, keys := RefreshCache(map[], Selected(cache, listOf), cat, NameOnly());
  }

  // ----- controller/List_Empty_Cache.py: names come from the cache first -----

  /** `artist_cache.get(artist_id, {}).get('name')` is truthy. */
  function NamedIn(cache: Cache): string -> bool
  {
    id => id in cache && cache[id].HasName()
  }

  function UnnamedIn(cache: Cache): string -> bool
  {
    id => !(id in cache && cache[id].HasName())
  }

  /** `uncached_artist_ids`: the ids of the slice with no name in the cache. */
  function Unnamed(batch: seq<string>, cache: Cache): seq<string>
  {
    Filter(batch, UnnamedIn(cache))
  }

  /** The write of an id whose name the cache has: an artist of that id and name. */
  function CachedStep(cache: Cache, id: string): Step
    requires id in cache && cache[id].HasName()
  {
    Step(id, Artist(id, cache[id].name.value, [], None), false)
  }

  /** The writes for the ids of `batch` named in the cache, in slice order. */
  function CachedSteps(batch: seq<string>, cache: Cache): seq<Step>
  {
    if batch == [] then []
    else
      var id := batch[|batch| - 1];
      var front := CachedSteps(batch[..|batch| - 1], cache);
      if NamedIn(cache)(id) then front + [CachedStep(cache, id)] else front
  }

  lemma CachedStepsStep(batch: seq<string>, cache: Cache, k: nat)
    requires k < |batch|
    ensures NamedIn(cache)(batch[k]) ==>
      CachedSteps(batch[..k + 1], cache) == CachedSteps(batch[..k], cache) + [CachedStep(cache, batch[k])]
    ensures !NamedIn(cache)(batch[k]) ==> CachedSteps(batch[..k + 1], cache) == CachedSteps(batch[..k], cache)
  {
    assert batch[..k + 1][..k] == batch[..k];
  }

  /** Every cached write is for an id of the slice the cache names. */
  lemma {:induction false} CachedStepsKeys(batch: seq<string>, cache: Cache, s: Step)
    requires s in CachedSteps(batch, cache)
    ensures s.key in batch && NamedIn(cache)(s.key)
  {
    var front := batch[..|batch| - 1];
    if s in CachedSteps(front, cache) {
      CachedStepsKeys(front, cache, s);
    }
  }

  /** An id of the slice the cache names is listed with the cached name. */
  lemma {:induction false} CachedStepsValue(c0: Cache, batch: seq<string>, cache: Cache, k: string)
    requires k in batch && NamedIn(cache)(k)
    ensures var c := Apply(c0, CachedSteps(batch, cache), NameOnly());
      k in c && c[k] == Record(cache[k].name, [], Absent)
  {
    var front := batch[..|batch| - 1];
    var id := batch[|batch| - 1];
    var before := Apply(c0, CachedSteps(front, cache), NameOnly());
    var after := Apply(c0, CachedSteps(batch, cache), NameOnly());
    if NamedIn(cache)(id) {
      var s := CachedStep(cache, id);
      assert CachedSteps(batch, cache) == CachedSteps(front, cache) + [s];
      ApplySnoc(c0, CachedSteps(front, cache), s, NameOnly());
      assert after == before[id := Record(cache[id].name, [], Absent)];
    }
    if id != k {
      assert k in front by {
        assert batch == front + [id];
      }
      CachedStepsValue(c0, front, cache, k);
    }
  }

  /** The writes of one slice: the cached names, then one catalog request for the others, if any. */
  function SliceSteps(batch: seq<string>, cache: Cache, cat: Catalog): seq<Step>
  {
    var unnamed := Unnamed(batch, cache);
    CachedSteps(batch, cache) + if unnamed == [] then [] else FetchSlice(unnamed, ManySteps(cat), OneStep(cat))
  }

  /** The writes of the controller's walk over the slices of `ids`. */
  function ControllerFrom(ids: seq<string>, cache: Cache, cat: Catalog): seq<Step>
    decreases |ids|
  {
    if ids == [] then []
    else if |ids| <= SliceSize then SliceSteps(ids, cache, cat)
    else SliceSteps(ids[..SliceSize], cache, cat) + ControllerFrom(ids[SliceSize..], cache, cat)
  }

  function ControllerSteps(cache: Cache, listOf: set<string> -> seq<string>, cat: Catalog): seq<Step>
  {
    ControllerFrom(Selected(cache, listOf), cache, cat)
  }

  lemma ControllerFromStep(ids: seq<string>, i: nat, cache: Cache, cat: Catalog)
    requires i < |ids|
    ensures var end := if i + SliceSize <= |ids| then i + SliceSize else |ids|;
      ControllerFrom(ids[i..], cache, cat) == SliceSteps(ids[i..end], cache, cat) + ControllerFrom(ids[end..], cache, cat)
  {
    var end := if i + SliceSize <= |ids| then i + SliceSize else |ids|;
    if |ids[i..]| <= SliceSize {
      assert ids[i..end] == ids[i..];
      assert ids[end..] == [];
    } else {
      assert ids[i..][..SliceSize] == ids[i..end];
      assert ids[i..][SliceSize..] == ids[end..];
    }
  }

  /** With a faithful catalog a slice writes only its own ids, and the catalog only those the cache does not name. */
  lemma SliceKeys(batch: seq<string>, cache: Cache, cat: Catalog, s: Step)
    requires Faithful(cat) && s in SliceSteps(batch, cache, cat)
    ensures s.key in batch
    ensures NamedIn(cache)(s.key) ==> s in CachedSteps(batch, cache)
  {
    var unnamed := Unnamed(batch, cache);
    if s in CachedSteps(batch, cache) {
      CachedStepsKeys(batch, cache, s);
    } else {
      assert unnamed != [] && s in FetchSlice(unnamed, ManySteps(cat), OneStep(cat));
      SliceFetchKeys(unnamed, cat, s);
      FilterMember(batch, UnnamedIn(cache), s.key);
    }
  }

  /** With a faithful catalog the request for a slice writes only ids of that slice. */
  lemma SliceFetchKeys(ids: seq<string>, cat: Catalog, s: Step)
    requires Faithful(cat) && s in FetchSlice(ids, ManySteps(cat), OneStep(cat))
    ensures s.key in ids
  {
    match cat.many(ids) {
      case Some(response) =>
        BatchStepsMember(response, s);
      case None =>
        SurvivorsMember(ids, OneStep(cat), s);
        var i :| 0 <= i < |ids| && OneStep(cat)(ids[i]) == Some(s);
    }
  }

  /** A slice writes the cached name of every id of it the cache names. */
  lemma SliceNamed(c0: Cache, batch: seq<string>, cache: Cache, cat: Catalog, k: string)
    requires Faithful(cat) && k in batch && NamedIn(cache)(k)
    ensures var c := Apply(c0, SliceSteps(batch, cache, cat), NameOnly());
      k in c && c[k] == Record(cache[k].name, [], Absent)
  {
    var unnamed := Unnamed(batch, cache);
    CachedStepsValue(c0, batch, cache, k);
    if unnamed != [] {
      var fetched := FetchSlice(unnamed, ManySteps(cat), OneStep(cat));
      ApplyAppend(c0, CachedSteps(batch, cache), fetched, NameOnly());
      FilterMember(batch, UnnamedIn(cache), k);
      forall i | 0 <= i < |fetched| ensures fetched[i].key != k {
        SliceFetchKeys(unnamed, cat, fetched[i]);
      }
      ApplyOutside(Apply(c0, CachedSteps(batch, cache), NameOnly()), fetched, NameOnly(), k);
    } else {
      assert SliceSteps(batch, cache, cat) == CachedSteps(batch, cache) + [];
      assert CachedSteps(batch, cache) + [] == CachedSteps(batch, cache);
    }
  }

  /** With a faithful catalog the controller writes only ids it walks. */
  lemma {:induction false} ControllerKeys(ids: seq<string>, cache: Cache, cat: Catalog, s: Step)
    requires Faithful(cat) && s in ControllerFrom(ids, cache, cat)
    ensures s.key in ids
    decreases |ids|
  {
    if |ids| <= SliceSize {
      SliceKeys(ids, cache, cat, s);
    } else {
      assert ids == ids[..SliceSize] + ids[SliceSize..];
      if s in SliceSteps(ids[..SliceSize], cache, cat) {
        SliceKeys(ids[..SliceSize], cache, cat, s);
      } else {
        ControllerKeys(ids[SliceSize..], cache, cat, s);
      }
    }
  }

  /**
   * With a faithful catalog, every id walked once whose name the cache has
   * ends up listed with exactly that name: a catalog answer never replaces it.
   */
  lemma {:induction false} ControllerNamed(c0: Cache, ids: seq<string>, cache: Cache, cat: Catalog, k: string)
    requires Faithful(cat) && Distinct(ids) && k in ids && NamedIn(cache)(k)
    ensures var c := Apply(c0, ControllerFrom(ids, cache, cat), NameOnly());
      k in c && c[k] == Record(cache[k].name, [], Absent)
    decreases |ids|
  {
    if |ids| <= SliceSize {
      SliceNamed(c0, ids, cache, cat, k);
    } else {
      var first := SliceSteps(ids[..SliceSize], cache, cat);
      var rest := ControllerFrom(ids[SliceSize..], cache, cat);
      ApplyAppend(c0, first, rest, NameOnly());
      assert ids == ids[..SliceSize] + ids[SliceSize..];
      var c1 := Apply(c0, first, NameOnly());
      if k in ids[..SliceSize] {
        SliceNamed(c0, ids[..SliceSize], cache, cat, k);
        assert k !in ids[SliceSize..];
        forall i | 0 <= i < |rest| ensures rest[i].key != k {
          ControllerKeys(ids[SliceSize..], cache, cat, rest[i]);
        }
        ApplyOutside(c1, rest, NameOnly(), k);
      } else {
        ControllerNamed(c1, ids[SliceSize..], cache, cat, k);
      }
    }
  }

  /** When the cache names none of the ids, the controller makes the root script's requests and writes. */
  lemma {:induction false} ControllerAsRoot(ids: seq<string>, cache: Cache, cat: Catalog)
    requires forall k :: 0 <= k < |ids| ==> !NamedIn(cache)(ids[k])
    ensures ControllerFrom(ids, cache, cat) == Steps(ids, cat)
    decreases |ids|
  {
    if ids != [] {
      var batch := if |ids| <= SliceSize then ids else ids[..SliceSize];
      NoneCached(batch, cache);
      FilterAll(batch, UnnamedIn(cache));
      assert SliceSteps(batch, cache, cat) == FetchSlice(batch, ManySteps(cat), OneStep(cat));
      if |ids| > SliceSize {
        ControllerAsRoot(ids[SliceSize..], cache, cat);
      }
    }
  }

  lemma {:induction false} NoneCached(batch: seq<string>, cache: Cache)
    requires forall k :: 0 <= k < |batch| ==> !NamedIn(cache)(batch[k])
    ensures CachedSteps(batch, cache) == []
  {
    if batch != [] {
      var front := batch[..|batch| - 1];
      assert forall k :: 0 <= k < |front| ==> front[k] == batch[k];
      NoneCached(front, cache);
    }
  }

  /**
   * The controller's listing: every artist listed has a name and no genres;
   * with a faithful catalog it lacks genres in the cache, and one the cache
   * names is always listed, with the cached name.
   */
  lemma ControllerListedMeaning(cache: Cache, listOf: set<string> -> seq<string>, cat: Catalog, k: string)
    requires Enumerates(listOf) && ListsOnce(listOf)
    ensures var data := DataOf(ControllerSteps(cache, listOf, cat));
      (k in data ==> NameOnlyEntry(data[k])) &&
      (Faithful(cat) && k in data ==> k in cache && cache[k].genres == []) &&
      (Faithful(cat) && k in cache && cache[k].genres == [] && cache[k].HasName() ==>
        k in data && data[k].name == cache[k].name)
  {
    var sel := Selected(cache, listOf);
    var steps := ControllerSteps(cache, listOf, cat);
    SelectedMeaning(cache, listOf, k);
    DataOfMeaning(steps, k);
    if Faithful(cat) && k in DataOf(steps) {
      var i :| 0 <= i < |steps| && steps[i].key == k;
      ControllerKeys(sel, cache, cat, steps[i]);
    }
    if Faithful(cat) && k in cache && cache[k].genres == [] && cache[k].HasName() {
      ControllerNamed(map[], sel, cache, cat, k);
    }
  }

  // ----- the controller's loops -----

  /** The first pass over a slice: the cached names written, the others gathered. */
  method WriteNamed(c0: Cache, batch: seq<string>, cache: Cache) returns (c: Cache, keys: seq<string>, unnamed: seq<string>)
    ensures c == Apply(c0, CachedSteps(batch, cache), NameOnly())
    ensures keys == Keys(CachedSteps(batch, cache), KeyOf)
    ensures unnamed == Unnamed(batch, cache)
  {
    c, keys, unnamed := c0, [], [];
    for j: nat := 0 to |batch|
      invariant c == Apply(c0, CachedSteps(batch[..j], cache), NameOnly())
      invariant keys == Keys(CachedSteps(batch[..j], cache), KeyOf)
      invariant unnamed == Filter(batch[..j], UnnamedIn(cache))
    {
      var artistId := batch[j];
      CachedStepsStep(batch, cache, j);
      FilterStep(batch, j, UnnamedIn(cache));
      if artistId in cache && cache[artistId].HasName() {
        var cachedName := cache[artistId].name.value;
        ApplySnoc(c0, CachedSteps(batch[..j], cache), CachedStep(cache, artistId), NameOnly());
        KeysSnoc(CachedSteps(batch[..j], cache), CachedStep(cache, artistId), KeyOf);
        c := c[artistId := Record(Some(cachedName), [], Absent)];
        keys := keys + [artistId];
      } else {
        unnamed := unnamed + [artistId];
      }
    }
    assert batch[..|batch|] == batch;
  }

  /** One slice of the controller: the cached names, then one request for the rest when there is any. */
  method WriteControllerSlice(c0: Cache, batch: seq<string>, cache: Cache, cat: Catalog) returns (c: Cache, keys: seq<string>)
    ensures c == Apply(c0, SliceSteps(batch, cache, cat), NameOnly())
    ensures keys == Keys(SliceSteps(batch, cache, cat), KeyOf)
  {
    var unnamed;
    c, keys, unnamed := WriteNamed(c0, batch, cache);
    if unnamed != [] {
      var fetched := FetchSlice(unnamed, ManySteps(cat), OneStep(cat));
      ApplyAppend(c0, CachedSteps(batch, cache), fetched, NameOnly());
      KeysAppend(CachedSteps(batch, cache), fetched, KeyOf);
      var n, more;
      c, n, more := WriteSlice(c, unnamed, cat, NameOnly());
      keys := keys + more;
    } else {
      assert SliceSteps(batch, cache, cat) == CachedSteps(batch, cache) + [];
      assert CachedSteps(batch, cache) + [] == CachedSteps(batch, cache);
    }
  }

  lemma ControllerStep(ids: seq<string>, i: nat, end: nat, cache: Cache, cat: Catalog, done: seq<Step>)
    requires i < |ids| && end == if i + SliceSize <= |ids| then i + SliceSize else |ids|
    requires done + ControllerFrom(ids[i..], cache, cat) == ControllerFrom(ids, cache, cat)
    ensures var written := SliceSteps(ids[i..end], cache, cat);
      (done + written) + ControllerFrom(ids[end..], cache, cat) == ControllerFrom(ids, cache, cat) &&
      Apply(map[], done + written, NameOnly()) == Apply(Apply(map[], done, NameOnly()), written, NameOnly())
  {
    var written := SliceSteps(ids[i..end], cache, cat);
    var rest := ControllerFrom(ids[end..], cache, cat);
    ControllerFromStep(ids, i, cache, cat);
    assert done + (written + rest) == (done + written) + rest;
    ApplyAppend(map[], done, written, NameOnly());
  }

  /** The controller's slice loop over `ids`, starting from an empty `artists_data`. */
  method ControllerWalk(ids: seq<string>, cache: Cache, cat: Catalog) returns (data: Cache, keys: seq<string>)
    ensures data == DataOf(ControllerFrom(ids, cache, cat))
    ensures keys == Keys(ControllerFrom(ids, cache, cat), KeyOf)
  {
    data, keys := map[], [];
    ghost var done: seq<Step> := [];
    var i := 0;
    assert ids[0..] == ids;
    while i < |ids|
      invariant 0 <= i <= |ids|
      invariant done + ControllerFrom(ids[i..], cache, cat) == ControllerFrom(ids, cache, cat)
      invariant data == Apply(map[], done, NameOnly())
      invariant keys == Keys(done, KeyOf)
      decreases |ids| - i
    {
      var end := if i + SliceSize <= |ids| then i + SliceSize else |ids|;
      var batchArtistIds := ids[i..end];
      ControllerStep(ids, i, end, cache, cat, done);
      ghost var written := SliceSteps(batchArtistIds, cache, cat);
      var more;
      data, more := WriteControllerSlice(data, batchArtistIds, cache, cat);
      KeysAppend(done, written, KeyOf);
      keys := keys + more;
      done := done + written;
      i := end;
    }
    assert ids[i..] == [];
    assert done + ControllerFrom(ids[i..], cache, cat) == done;
  }

  /** The controller's slice loop over the selected ids. */
  method ControllerData(cache: Cache, listOf: set<string> -> seq<string>, cat: Catalog) returns (data: Cache, keys: seq<string>)
    ensures data == DataOf(ControllerSteps(cache, listOf, cat))
    ensures keys == Keys(ControllerSteps(cache, listOf, cat), KeyOf)
  {
    data, keys := ControllerWalk(Selected(cache, listOf), cache, cat);
  }

  // ----- the text file -----

  /** The order `artists_data.items()` lists its keys: each id where it was first written. */
  function Order(steps: seq<Step>): seq<string>
  {
    Dedup(Keys(steps, KeyOf))
  }

  /** The order lists every artist of `artists_data` once. */
  lemma OrderMeaning(steps: seq<Step>)
    ensures Distinct(Order(steps))
    ensures Elems(Order(steps)) == DataOf(steps).Keys
  {
    var ks := Keys(steps, KeyOf);
    forall k ensures k in Order(steps) <==> k in DataOf(steps) {
      DataOfMeaning(steps, k);
      if k in Order(steps) {
        var j :| 0 <= j < |Order(steps)| && Order(steps)[j] == k;
      }
      if k in DataOf(steps) {
        var i :| 0 <= i < |steps| && steps[i].key == k;
        assert ks[i] == k;
      }
    }
  }

  /** One `(artist_id, artist_info)` pair, with the name the text shows. */
  datatype Row = Row(id: string, name: string)

  /** `x[1]['name'] if x[1] else ''`: every value is a non-empty dict, so its name. */
  function NameOf(r: Record): string
  {
    if r.name.Some? then r.name.value else ""
  }

  /** One row per id of `order`, with the name `artists_data` holds for it. */
  function RowsOf(order: seq<string>, data: Cache): (r: seq<Row>)
    requires forall k :: 0 <= k < |order| ==> order[k] in data
    ensures |r| == |order|
    ensures forall k :: 0 <= k < |order| ==> r[k] == Row(order[k], NameOf(data[order[k]]))
  {
    seq(|order|, k requires 0 <= k < |order| => Row(order[k], NameOf(data[order[k]])))
  }

  /** `sorted(..., key=lambda x: x[1]['name'])`: by name, code point by code point. */
  predicate ByName(a: Row, b: Row)
  {
    StrLe(a.name, b.name)
  }

  lemma ByNamePreorder()
    ensures TotalPreorder(ByName)
  {
    forall a: Row, b: Row ensures ByName(a, b) || ByName(b, a) {
      StrLeTotal(a.name, b.name);
    }
    forall a: Row, b: Row, c: Row | ByName(a, b) && ByName(b, c) ensures ByName(a, c) {
      StrLeTrans(a.name, b.name, c.name);
    }
  }

  /** The three lines written for one artist. */
  function EntryText(row: Row): string
  {
    "    '" + row.id + "': [  # " + row.name + "\n" + "        \n" + "    ],\n"
  }

  /** The text file: the entries, one after the other. */
  function TextOf(rows: seq<Row>): string
  {
    FlatMap(rows, EntryText)
  }

  /** The rows of `artists_data` built by `steps`, in the order `items()` gives them. */
  function WrittenRows(steps: seq<Step>): seq<Row>
  {
    OrderMeaning(steps);
    RowsOf(Order(steps), DataOf(steps))
  }

  /** The same rows, sorted by name. */
  function SortedRows(steps: seq<Step>): seq<Row>
  {
    SortBy(WrittenRows(steps), ByName)
  }

  /** A permutation of the rows of a listing holds each artist once, with its name. */
  lemma RowsCover(order: seq<string>, data: Cache, rows: seq<Row>)
    requires Distinct(order) && Elems(order) == data.Keys
    requires forall id :: id in data ==> data[id].name.Some?
    requires multiset(rows) == multiset(RowsOf(order, data))
    ensures |rows| == |data|
    ensures forall k :: 0 <= k < |rows| ==> rows[k].id in data && data[rows[k].id].name == Some(rows[k].name)
    ensures forall id :: id in data ==> exists k :: 0 <= k < |rows| && rows[k].id == id
  {
    var unsorted := RowsOf(order, data);
    DistinctCard(order);
    assert |rows| == |multiset(rows)| == |multiset(unsorted)| == |unsorted|;
    forall k | 0 <= k < |rows| ensures rows[k].id in data && data[rows[k].id].name == Some(rows[k].name) {
      assert rows[k] in multiset(unsorted);
      var j :| 0 <= j < |unsorted| && unsorted[j] == rows[k];
      assert order[j] in Elems(order);
    }
    forall id | id in data ensures exists k :: 0 <= k < |rows| && rows[k].id == id {
      assert id in Elems(order);
      var j :| 0 <= j < |order| && order[j] == id;
      assert unsorted[j] in multiset(rows);
      var k :| 0 <= k < |rows| && rows[k] == unsorted[j];
    }
  }

  /**
   * The text lists every artist of `artists_data` once, with its name, in
   * name order; artists of the same name stay in the order they were first
   * written.
   */
  lemma SortedRowsMeaning(steps: seq<Step>, e: Row)
    ensures var rows := SortedRows(steps); var data := DataOf(steps);
      |rows| == |data| && SortedBy(rows, ByName) &&
      (forall k :: 0 <= k < |rows| ==> rows[k].id in data && data[rows[k].id].name == Some(rows[k].name)) &&
      (forall id :: id in data ==> exists k :: 0 <= k < |rows| && rows[k].id == id) &&
      Filter(rows, (y: Row) => Tied(ByName, y, e)) == Filter(WrittenRows(steps), (y: Row) => Tied(ByName, y, e))
  {
    var data := DataOf(steps);
    OrderMeaning(steps);
    ByNamePreorder();
    SortByMeaning(WrittenRows(steps), ByName, e);
    forall id | id in data ensures data[id].name.Some? {
      DataOfMeaning(steps, id);
    }
    RowsCover(Order(steps), data, SortedRows(steps));
  }

  /** `save_artists_to_text`: the loop writing the three lines of each row. */
  method WriteText(rows: seq<Row>) returns (text: string)
    ensures text == TextOf(rows)
  {
    text := "";
    for i: nat := 0 to |rows|
      invariant text == TextOf(rows[..i])
    {
      FlatMapStep(rows, EntryText, i);
      text := text + ("    '" + rows[i].id + "': [  # " + rows[i].name + "\n");
      text := text + "        \n";
      text := text + "    ],\n";
    }
    assert rows[..|rows|] == rows;
  }

  // ----- the whole run -----

  /** What `list_artists_without_genres` saves: `artists_data` as JSON, and the text file. */
  datatype Saved = Saved(json: Cache, text: string)

  function SavedOf(steps: seq<Step>): Saved
  {
    Saved(DataOf(steps), TextOf(SortedRows(steps)))
  }

  /** The two files, from `artists_data` and the keys in the order they were written. */
  method Save(data: Cache, keys: seq<string>, ghost steps: seq<Step>) returns (r: Saved)
    requires data == DataOf(steps) && keys == Keys(steps, KeyOf)
    ensures r == SavedOf(steps)
  {
    OrderMeaning(steps);
    var order := DedupLoop(keys);
    var rows := SortBy(RowsOf(order, data), ByName);
    var text := WriteText(rows);
    r := Saved(data, text);
  }

  /** List_Empty_Cache.py: nothing is saved when no artist lacks genres. */
  method ListArtistsWithoutGenres(cache: Cache, listOf: set<string> -> seq<string>, cat: Catalog)
    returns (r: Option<Saved>)
    ensures r.None? <==> Selected(cache, listOf) == []
    ensures r.Some? ==> r.value == SavedOf(RootSteps(cache, listOf, cat))
  {
    if Selected(cache, listOf) == [] {
      return None;
    }
    var data, keys := RootData(cache, listOf, cat);
    var saved := Save(data, keys, RootSteps(cache, listOf, cat));
    r := Some(saved);
  }

  /** controller/List_Empty_Cache.py: the same, with the cached names taken first. */
  method ListArtistsWithoutGenresCached(cache: Cache, listOf: set<string> -> seq<string>, cat: Catalog)
    returns (r: Option<Saved>)
    ensures r.None? <==> Selected(cache, listOf) == []
    ensures r.Some? ==> r.value == SavedOf(ControllerSteps(cache, listOf, cat))
  {
    if Selected(cache, listOf) == [] {
      return None;
    }
    var data, keys := ControllerData(cache, listOf, cat);
    var saved := Save(data, keys, ControllerSteps(cache, listOf, cat));
    r := Some(saved);
  }

  /** Nothing is saved exactly when every cached artist has genres. */
  lemma NothingSavedMeaning(cache: Cache, listOf: set<string> -> seq<string>)
    requires Enumerates(listOf) && ListsOnce(listOf)
    ensures Selected(cache, listOf) == [] <==> forall id :: id in cache ==> cache[id].genres != []
  {
    if Selected(cache, listOf) != [] {
      var id := Selected(cache, listOf)[0];
      SelectedMeaning(cache, listOf, id);
    }
    forall id | id in cache && cache[id].genres == [] ensures Selected(cache, listOf) != [] {
      SelectedMeaning(cache, listOf, id);
    }
  }

  /** When the cache names none of the artists without genres, the two scripts save the same files. */
  lemma SameWhenUnnamed(cache: Cache, listOf: set<string> -> seq<string>, cat: Catalog)
    requires Enumerates(listOf) && ListsOnce(listOf)
    requires forall id :: id in cache && cache[id].genres == [] ==> !cache[id].HasName()
    ensures SavedOf(ControllerSteps(cache, listOf, cat)) == SavedOf(RootSteps(cache, listOf, cat))
  {
    var sel := Selected(cache, listOf);
    forall k | 0 <= k < |sel| ensures !NamedIn(cache)(sel[k]) {
      SelectedMeaning(cache, listOf, sel[k]);
    }
    ControllerAsRoot(sel, cache, cat);
  }
}
