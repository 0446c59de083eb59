/** The process-wide rate window of `get_paginated_resource`: the globals
    `request_count` and `rate_limit_start`, together with the clock they are read
    against (whole seconds). */
module RateLimit {

  /** Requests allowed per window (the script's `RATE_LIMIT`). */
  const RateLimitCount := 1000
  /** Length of a window in seconds (the script's `RATE_PERIOD`). */
  const RatePeriod := 3600

  datatype Window = Window(count: int, start: int, now: int)

  /** The check made once on entry to `get_paginated_resource`: when the count has
      reached the limit, sleep until `RatePeriod` seconds have passed since the window
      started, then open a new window with a zero count. */
  function Gate(w: Window): (r: Window)
    ensures w.count < RateLimitCount ==> r == w
    ensures w.count >= RateLimitCount ==>
              r.count == 0 && r.start == r.now
              && r.now == (if w.now - w.start < RatePeriod then w.start + RatePeriod else w.now)
    ensures r.count < RateLimitCount
    ensures r.now >= w.now
  {
    if w.count >= RateLimitCount then
      var elapsed := w.now - w.start;
      var now := if elapsed < RatePeriod then w.now + (RatePeriod - elapsed) else w.now;
      Window(0, now, now)
    else w
  }

  /** After the gate opens a new window, at least a full period has passed since the
      old window started, and the new window starts no earlier than the clock. */
  lemma GateWaitsOutThePeriod(w: Window)
    requires w.count >= RateLimitCount
    ensures Gate(w).start >= w.start + RatePeriod && Gate(w).start >= w.now
  {
  }

  /** Passing the gate twice in a row changes nothing more. */
  lemma GateIdempotent(w: Window)
    ensures Gate(Gate(w)) == Gate(w)
  {
  }
}
