/**
 * `RateLimiter` of model/Playlist_Tools.py and Playlist_Tools.py (the two
 * classes are identical). The clock is an explicit parameter: `now` is what
 * `time.time()` reads on entry to `wait`, and a sleep is taken to last
 * exactly as long as asked, so the second clock reading is `now + sleep`.
 */
module RateLimiting {
  import opened Wrappers

  /** One call of `wait`: how long it sleeps and the time it records. */
  datatype Pause = Pause(sleep: real, after: real)

  /**
   * `wait` with `requests_per_second == rps`, last request at `last` and
   * the clock at `now`: sleep for the rest of the interval `1 / rps`, if any
   * of it is left, then record the time. A rate of 0 makes the division raise.
   */
  function NextPause(rps: real, last: real, now: real): (r: Result<Pause>)
    ensures r.Err? <==> rps == 0.0
    ensures r.Ok? ==> r.value.sleep >= 0.0 && r.value.after == now + r.value.sleep
    ensures r.Ok? ==> (r.value.sleep > 0.0 <==> now - last < 1.0 / rps)
    ensures r.Ok? && now - last < 1.0 / rps ==> r.value.after == last + 1.0 / rps
  {
    if rps == 0.0 then Err("float division by zero")
    else
      var elapsed := now - last;
      if elapsed < 1.0 / rps then Ok(Pause(1.0 / rps - elapsed, now + (1.0 / rps - elapsed)))
      else Ok(Pause(0.0, now))
  }

  /** A wait never returns before `now`, nor sooner than one interval after the previous request. */
  lemma PauseLowerBounds(rps: real, last: real, now: real)
    requires rps > 0.0
    ensures NextPause(rps, last, now).Ok?
    ensures NextPause(rps, last, now).value.after >= now
    ensures NextPause(rps, last, now).value.after >= last + 1.0 / rps
  {
  }

  /**
   * Two successive waits, on a clock that does not run backwards, return at
   * least `1 / rps` seconds apart.
   */
  lemma SuccessiveWaitsSpaced(rps: real, last: real, now1: real, now2: real)
    requires rps > 0.0
    requires NextPause(rps, last, now1).Ok? && now2 >= NextPause(rps, last, now1).value.after
    ensures var first := NextPause(rps, last, now1).value.after;
      NextPause(rps, first, now2).Ok? && NextPause(rps, first, now2).value.after >= first + 1.0 / rps
  {
    PauseLowerBounds(rps, NextPause(rps, last, now1).value.after, now2);
  }

  class RateLimiter {
    var requestsPerSecond: real
    var lastRequestTime: real

    /** A new limiter has never made a request: its last request time is 0.0. */
    constructor(requestsPerSecond: real)
      ensures this.requestsPerSecond == requestsPerSecond && lastRequestTime == 0.0
    {
      this.requestsPerSecond := requestsPerSecond;
      lastRequestTime := 0.0;
    }

    /** `wait()` at clock reading `now`; returns the seconds slept, or the division error. */
    method Wait(now: real) returns (r: Result<real>)
      modifies this
      ensures requestsPerSecond == old(requestsPerSecond)
      ensures NextPause(old(requestsPerSecond), old(lastRequestTime), now).Ok? ==>
        r == Ok(NextPause(old(requestsPerSecond), old(lastRequestTime), now).value.sleep) &&
        lastRequestTime == NextPause(old(requestsPerSecond), old(lastRequestTime), now).value.after
      ensures NextPause(old(requestsPerSecond), old(lastRequestTime), now).Err? ==>
        r.Err? && lastRequestTime == old(lastRequestTime)
    {
      if requestsPerSecond == 0.0 {
        return Err("float division by zero");
      }
      var currentTime := now;
      var timeSinceLastRequest := currentTime - lastRequestTime;
      var slept := 0.0;
      if timeSinceLastRequest < 1.0 / requestsPerSecond {
        slept := 1.0 / requestsPerSecond - timeSinceLastRequest;
      }
      lastRequestTime := currentTime + slept;
      r := Ok(slept);
    }
  }
}
