/**
 * The configuration record of a rolling cache (options.go). Durations are Go
 * `time.Duration` values, that is int64 counts of nanoseconds.
 */
module CacheOptions {
  import opened Common

  /**
   * `failInterval` is not declared in options.go but cache.go:176 and the example
   * program use it; Go gives it the zero value 0 when a caller leaves it out.
   */
  datatype Options = Options(
    interval: int,      // delay after a successful cycle; must be non-zero
    failInterval: int,  // delay after a failed cycle
    lifetime: int,      // idle time before the cache retires itself; 0 means never
    maxRetries: int,    // retries within one cycle; -1 means no limit
    debug: bool)        // logging only

  /** The sentinel 0 of `lifetime`: the cache never expires. */
  predicate UnlimitedLifetime(o: Options) {
    o.lifetime == 0
  }

  /** The sentinel -1 of `maxRetries`: a cycle retries until an attempt succeeds. */
  predicate UnlimitedRetries(o: Options) {
    o.maxRetries == -1
  }

  /** Only options with a non-zero interval may start a cache (functions.go:56-58). */
  predicate IntervalSet(o: Options) {
    o.interval != 0
  }

  /** The options that the `Get` and `GetWithTimeout` wrappers build (functions.go:17-20, 26-29). */
  function WrapperOptions(interval: int): (o: Options)
    requires IsInt64(interval)
    ensures o.interval == interval && o.failInterval == 0 && o.maxRetries == 0 && !o.debug
    ensures IsInt64(o.lifetime) && (o.lifetime - 10 * interval) % TwoTo64 == 0
    ensures IsInt64(10 * interval) ==> o.lifetime == 10 * interval
    ensures 0 < interval && IsInt64(10 * interval) ==> !UnlimitedLifetime(o)
  {
    Options(interval, 0, WrapInt64(interval * 10), 0, false)
  }
}
