/** The rate limiter run before every network dispatch, over an integer
    clock in milliseconds. */
module RateLimiter {

  /** The minimum spacing between dispatches: 1.5 seconds. */
  const RateLimitMs: nat := 1500

  /** The clock once the limiter returns, and the new time of the last call. */
  datatype Limited = Limited(clock: int, lastCall: int)

  /** If less than the limit has elapsed since `lastCall`, sleep for the
      remainder; then record the current time as the last call. */
  function RateLimit(now: int, lastCall: int): (r: Limited)
    ensures r.lastCall == r.clock
    ensures r.clock >= now
    ensures r.clock >= lastCall + RateLimitMs
    ensures r.clock == now || r.clock == lastCall + RateLimitMs
  {
    var elapsed := now - lastCall;
    var clock := if elapsed < RateLimitMs then now + (RateLimitMs - elapsed) else now;
    Limited(clock, clock)
  }

  /** The limiter never sleeps when the limit has already passed, and it
      sleeps exactly until the limit otherwise. */
  lemma NoNeedlessWait(now: int, lastCall: int)
    ensures now - lastCall >= RateLimitMs <==> RateLimit(now, lastCall).clock == now
  {
  }
}
