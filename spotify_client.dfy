/**
 * The catalog client helpers of model/spotify_client.py and spotify_client.py:
 * `get_artist_with_retry`, an exponential-backoff retry loop, and
 * `get_artists_batch` / `get_tracks_batch`, a chunked fetch with a per-item
 * fallback. The catalog is an oracle: `call(k)` is the outcome of the k-th
 * attempt, `many(batch)` the outcome of one batch request (`None` when it
 * raises) and `one(id)` the outcome of one single-item request. Sleeping is
 * recorded as the list of delays asked for.
 */
module SpotifyClient {
  import opened Wrappers
  import opened Text
  import opened Lists

  /** What one catalog call did: returned a value or raised with a message. */
  datatype Outcome<T> = Returned(value: T) | Failed(message: string)

  /** How the retry loop ended: a value, a re-raised error, or no attempt at all (`None`). */
  datatype RetryResult<T> = Success(value: T) | Raised(message: string) | NoResult

  /** How a run ended and how many attempts (0, 1, ...) had been started by then. */
  datatype Run<T> = Run(result: RetryResult<T>, calls: nat)

  /** `'rate' in str(e).lower() or 'timeout' in str(e).lower()`. */
  predicate Transient(message: string)
  {
    Contains(Lower(message), "rate") || Contains(Lower(message), "timeout")
  }

  function Pow2(k: nat): (r: nat)
    ensures r >= 1
  {
    if k == 0 then 1 else 2 * Pow2(k - 1)
  }

  /** The `k`-th wait is `base_delay * 2 ** k` seconds. */
  predicate IsBackoff(delays: seq<nat>, baseDelay: nat)
  {
    forall k :: 0 <= k < |delays| ==> delays[k] == baseDelay * Pow2(k)
  }

  lemma BackoffSnoc(delays: seq<nat>, baseDelay: nat)
    requires IsBackoff(delays, baseDelay)
    ensures IsBackoff(delays + [baseDelay * Pow2(|delays|)], baseDelay)
  {
  }

  /**
   * The retry loop from attempt `attempt` on. A transient failure with
   * attempts left moves to the next attempt; any other failure ends the run
   * with that error; attempts that were never started leave no result.
   */
  function RetryRun<T>(call: nat -> Outcome<T>, maxRetries: int, attempt: nat): (r: Run<T>)
    ensures attempt >= maxRetries ==> r == Run(NoResult, attempt)
    ensures attempt < maxRetries ==> attempt < r.calls <= maxRetries && !r.result.NoResult?
    ensures r.result.Success? ==> call(r.calls - 1) == Returned(r.result.value)
    ensures r.result.Raised? ==>
      call(r.calls - 1) == Failed(r.result.message) &&
      (!Transient(r.result.message) || r.calls == maxRetries)
    ensures forall k :: attempt <= k < r.calls - 1 ==> call(k).Failed? && Transient(call(k).message)
    decreases if attempt < maxRetries then maxRetries - attempt else 0
  {
    if attempt >= maxRetries then Run(NoResult, attempt)
    else match call(attempt)
      case Returned(v) => Run(Success(v), attempt + 1)
      case Failed(m) =>
        if Transient(m) && attempt < maxRetries - 1 then RetryRun(call, maxRetries, attempt + 1)
        else Run(Raised(m), attempt + 1)
  }

  /** With `max_retries <= 0` the loop body never runs and the function returns `None`. */
  lemma NoAttemptsNoResult<T>(call: nat -> Outcome<T>, maxRetries: int)
    ensures RetryRun(call, maxRetries, 0).result == NoResult <==> maxRetries <= 0
    ensures maxRetries <= 0 ==> RetryRun(call, maxRetries, 0).calls == 0
  {
  }

  /** A first attempt that returns ends the run at once, with one call. */
  lemma FirstSuccessReturned<T>(call: nat -> Outcome<T>, maxRetries: int)
    requires maxRetries > 0 && call(0).Returned?
    ensures RetryRun(call, maxRetries, 0) == Run(Success(call(0).value), 1)
  {
  }

  /**
   * A run where every attempt fails transiently makes exactly `max_retries`
   * calls and re-raises the last error.
   */
  lemma {:induction false} AlwaysTransientRaisesLast<T>(call: nat -> Outcome<T>, maxRetries: int, attempt: nat)
    requires attempt < maxRetries
    requires forall k :: call(k).Failed? && Transient(call(k).message)
    ensures RetryRun(call, maxRetries, attempt) == Run(Raised(call(maxRetries - 1).message), maxRetries)
    decreases maxRetries - attempt
  {
    if attempt < maxRetries - 1 {
      AlwaysTransientRaisesLast(call, maxRetries, attempt + 1);
    }
  }

  /**
   * `get_artist_with_retry`: try up to `maxRetries` times; after a transient
   * failure with attempts left, wait `base_delay * 2 ** attempt` seconds.
   */
  method GetArtistWithRetry<T>(call: nat -> Outcome<T>, maxRetries: int, baseDelay: nat)
    returns (result: RetryResult<T>, delays: seq<nat>)
    ensures result == RetryRun(call, maxRetries, 0).result
    ensures |delays| == if maxRetries <= 0 then 0 else RetryRun(call, maxRetries, 0).calls - 1
    ensures IsBackoff(delays, baseDelay)
  {
    result := NoResult;
    delays := [];
    var attempt: nat := 0;
    while attempt < maxRetries
      invariant attempt == 0 || attempt < maxRetries
      invariant RetryRun(call, maxRetries, attempt) == RetryRun(call, maxRetries, 0)
      invariant |delays| == attempt
      invariant IsBackoff(delays, baseDelay)
      decreases maxRetries - attempt
    {
      match call(attempt) {
        case Returned(v) =>
          result := Success(v);
          return;
        case Failed(m) =>
          if Transient(m) && attempt < maxRetries - 1 {
            BackoffSnoc(delays, baseDelay);
            delays := delays + [baseDelay * Pow2(attempt)];
          } else {
            result := Raised(m);
            return;
          }
      }
      attempt := attempt + 1;
    }
  }

  /** The single-item fallback for a failed batch: successes in order, failures skipped. */
  function Survivors<T>(batch: seq<string>, one: string -> Option<T>): (r: seq<T>)
    ensures |r| <= |batch|
  {
    if batch == [] then []
    else
      var front := Survivors(batch[..|batch| - 1], one);
      match one(batch[|batch| - 1])
        case Some(x) => front + [x]
        case None => front
  }

  /** Every item the fallback returns was fetched for an id of the batch, and every success is kept. */
  lemma {:induction false} SurvivorsMember<T>(batch: seq<string>, one: string -> Option<T>, x: T)
    ensures x in Survivors(batch, one) <==> exists i :: 0 <= i < |batch| && one(batch[i]) == Some(x)
  {
    if batch != [] {
      var front := batch[..|batch| - 1];
      SurvivorsMember(front, one, x);
      assert forall i :: 0 <= i < |front| ==> front[i] == batch[i];
      if one(batch[|batch| - 1]) == Some(x) {
        assert one(batch[|batch| - 1]) == Some(x);
      }
    }
  }

  /** When every single request succeeds, the fallback loses nothing and keeps the order. */
  lemma {:induction false} SurvivorsAllSucceed<T>(batch: seq<string>, one: string -> Option<T>)
    requires forall i :: 0 <= i < |batch| ==> one(batch[i]).Some?
    ensures |Survivors(batch, one)| == |batch|
    ensures forall i :: 0 <= i < |batch| ==> Survivors(batch, one)[i] == one(batch[i]).value
  {
    if batch != [] {
      var front := batch[..|batch| - 1];
      assert forall i :: 0 <= i < |front| ==> front[i] == batch[i];
      SurvivorsAllSucceed(front, one);
    }
  }

  /** One slice: the batch response appended wholesale, or the single-item survivors. */
  function FetchSlice<T>(batch: seq<string>, many: seq<string> -> Option<seq<T>>, one: string -> Option<T>): seq<T>
  {
    match many(batch)
      case Some(items) => items
      case None => Survivors(batch, one)
  }

  /** The slices `ids[i:i + n]` fetched one after another, results concatenated. */
  function FetchedFrom<T>(ids: seq<string>, n: nat, many: seq<string> -> Option<seq<T>>, one: string -> Option<T>): seq<T>
    requires n > 0
    decreases |ids|
  {
    if ids == [] then []
    else if |ids| <= n then FetchSlice(ids, many, one)
    else FetchSlice(ids[..n], many, one) + FetchedFrom(ids[n..], n, many, one)
  }

  function FetchEach<T>(slices: seq<seq<string>>, many: seq<string> -> Option<seq<T>>, one: string -> Option<T>): (r: seq<seq<T>>)
    ensures |r| == |slices|
    ensures forall k :: 0 <= k < |slices| ==> r[k] == FetchSlice(slices[k], many, one)
  {
    seq(|slices|, k requires 0 <= k < |slices| => FetchSlice(slices[k], many, one))
  }

  /**
   * The fetch is exactly one request per slice of `Chunks(ids, n)`: the slices
   * cover the ids in order, each holds at most `n`, and the results are
   * concatenated in slice order.
   */
  lemma {:induction false} FetchedFromChunks<T>(ids: seq<string>, n: nat, many: seq<string> -> Option<seq<T>>, one: string -> Option<T>)
    requires n > 0
    ensures FetchedFrom(ids, n, many, one) == Flatten(FetchEach(Chunks(ids, n), many, one))
    decreases |ids|
  {
    if ids == [] {
    } else if |ids| <= n {
      FetchEachCons(ids, [], many, one);
      FlattenCons(FetchSlice(ids, many, one), []);
    } else {
      var rest := Chunks(ids[n..], n);
      FetchedFromChunks(ids[n..], n, many, one);
      FetchEachCons(ids[..n], rest, many, one);
      FlattenCons(FetchSlice(ids[..n], many, one), FetchEach(rest, many, one));
    }
  }

  /** Fetching a leading slice, then the others. */
  lemma FetchEachCons<T>(c: seq<string>, rest: seq<seq<string>>, many: seq<string> -> Option<seq<T>>, one: string -> Option<T>)
    ensures FetchEach([c] + rest, many, one) == [FetchSlice(c, many, one)] + FetchEach(rest, many, one)
  {
  }

  /**
   * A batch size of 0 makes `range` raise; a negative one gives an empty range,
   * so nothing is fetched.
   */
  function BatchResult<T>(ids: seq<string>, batchSize: int, many: seq<string> -> Option<seq<T>>, one: string -> Option<T>): Result<seq<T>>
  {
    if batchSize == 0 then Err("range() arg 3 must not be zero")
    else if batchSize < 0 then Ok([])
    else Ok(FetchedFrom(ids, batchSize, many, one))
  }

  /** An item is in a fetch's result iff its slice's batch response holds it or, after a failed batch, its own request returned it. */
  lemma {:induction false} FetchedMember<T>(ids: seq<string>, n: nat, many: seq<string> -> Option<seq<T>>, one: string -> Option<T>, x: T)
    requires n > 0
    ensures x in FetchedFrom(ids, n, many, one) <==>
      exists k :: 0 <= k < |Chunks(ids, n)| &&
        ((many(Chunks(ids, n)[k]).Some? && x in many(Chunks(ids, n)[k]).value) ||
         (many(Chunks(ids, n)[k]).None? &&
          exists i :: 0 <= i < |Chunks(ids, n)[k]| && one(Chunks(ids, n)[k][i]) == Some(x)))
  {
    var cs := Chunks(ids, n);
    var fs := FetchEach(cs, many, one);
    FetchedFromChunks(ids, n, many, one);
    FlattenMember(fs, x);
    forall k | 0 <= k < |cs|
      ensures x in fs[k] <==>
        ((many(cs[k]).Some? && x in many(cs[k]).value) ||
         (many(cs[k]).None? && exists i :: 0 <= i < |cs[k]| && one(cs[k][i]) == Some(x)))
    {
      SurvivorsMember(cs[k], one, x);
    }
  }

  /** When every batch request fails but every single request succeeds, the fallback fetches every id, in order. */
  lemma {:induction false} FallbackLosesNothing<T>(ids: seq<string>, n: nat, many: seq<string> -> Option<seq<T>>, one: string -> Option<T>)
    requires n > 0
    requires forall b :: many(b).None?
    requires forall i :: 0 <= i < |ids| ==> one(ids[i]).Some?
    ensures |FetchedFrom(ids, n, many, one)| == |ids|
    ensures forall i :: 0 <= i < |ids| ==> FetchedFrom(ids, n, many, one)[i] == one(ids[i]).value
    decreases |ids|
  {
    if ids == [] {
    } else if |ids| <= n {
      SurvivorsAllSucceed(ids, one);
    } else {
      assert forall i :: 0 <= i < n ==> ids[..n][i] == ids[i];
      SurvivorsAllSucceed(ids[..n], one);
      assert forall i :: 0 <= i < |ids| - n ==> ids[n..][i] == ids[n + i];
      FallbackLosesNothing(ids[n..], n, many, one);
    }
  }

  /** The single-item fallback loop over one failed batch. */
  method FetchOneByOne<T>(batch: seq<string>, one: string -> Option<T>) returns (items: seq<T>)
    ensures items == Survivors(batch, one)
  {
    items := [];
    for j: nat := 0 to |batch|
      invariant items == Survivors(batch[..j], one)
    {
      assert batch[..j + 1][..j] == batch[..j];
      match one(batch[j]) {
        case Some(x) => items := items + [x];
        case None =>
      }
    }
    assert batch[..|batch|] == batch;
  }

  /** One slice: the batch request, and the item-by-item fallback when it raises. */
  method FetchOneSlice<T>(batch: seq<string>, many: seq<string> -> Option<seq<T>>, one: string -> Option<T>)
    returns (items: seq<T>)
    ensures items == FetchSlice(batch, many, one)
  {
    match many(batch) {
      case Some(response) =>
        items := response;
      case None =>
        items := FetchOneByOne(batch, one);
    }
  }

  lemma FetchedFromStep<T>(ids: seq<string>, i: nat, n: nat, many: seq<string> -> Option<seq<T>>, one: string -> Option<T>)
    requires n > 0 && i < |ids|
    ensures FetchedFrom(ids[i..], n, many, one) ==
      FetchSlice(ids[i..if i + n <= |ids| then i + n else |ids|], many, one) +
      FetchedFrom(ids[if i + n <= |ids| then i + n else |ids|..], n, many, one)
  {
    var end := if i + n <= |ids| then i + n else |ids|;
    if |ids[i..]| <= n {
      assert ids[i..end] == ids[i..];
      assert ids[end..] == [];
    } else {
      assert ids[i..][..n] == ids[i..end];
      assert ids[i..][n..] == ids[end..];
    }
  }

  /** The step of a loop that gathers the slices into `all`: one more slice gathered, the rest still to come. */
  lemma FetchedPrefixStep<T>(ids: seq<string>, i: nat, n: nat, many: seq<string> -> Option<seq<T>>, one: string -> Option<T>, all: seq<T>)
    requires n > 0 && i < |ids|
    requires all + FetchedFrom(ids[i..], n, many, one) == FetchedFrom(ids, n, many, one)
    ensures var end := if i + n <= |ids| then i + n else |ids|;
      (all + FetchSlice(ids[i..end], many, one)) + FetchedFrom(ids[end..], n, many, one) == FetchedFrom(ids, n, many, one)
  {
    FetchedFromStep(ids, i, n, many, one);
  }

  /**
   * `get_artists_batch` / `get_tracks_batch`: for each slice of `batch_size`
   * ids, one batch request; if it raises, one request per id of the slice,
   * skipping those that raise.
   */
  method FetchInBatches<T>(ids: seq<string>, batchSize: int, many: seq<string> -> Option<seq<T>>, one: string -> Option<T>)
    returns (r: Result<seq<T>>)
    ensures r == BatchResult(ids, batchSize, many, one)
  {
    if batchSize == 0 {
      return Err("range() arg 3 must not be zero");
    }
    if batchSize < 0 {
      return Ok([]);
    }
    var all: seq<T> := [];
    var i := 0;
    while i < |ids|
      invariant 0 <= i <= |ids|
      invariant all + FetchedFrom(ids[i..], batchSize, many, one) == FetchedFrom(ids, batchSize, many, one)
      decreases |ids| - i
    {
      var end := if i + batchSize <= |ids| then i + batchSize else |ids|;
      var batch := ids[i..end];
      FetchedFromStep(ids, i, batchSize, many, one);
      var items := FetchOneSlice(batch, many, one);
      all := all + items;
      i := end;
    }
    assert ids[i..] == [];
    assert all + FetchedFrom(ids[i..], batchSize, many, one) == all;
    r := Ok(all);
  }
}
