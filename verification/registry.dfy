/**
 * The package-level registry of rolling caches (functions.go): the map from
 * URL to cache, get-or-create, the option-building wrappers, and the removal
 * an update loop performs when its cache expires (cache.go:181).
 */
module RollingCache {
  import opened Common
  import opened CacheOptions
  import opened CacheEntry

  /** `Start` panics with this when the options carry no interval (functions.go:56-58). */
  datatype StartError = IntervalNotSet

  /** The answer a reader gets for `timeout`: 0 selects the blocking `Get` (functions.go:46-50). */
  function ReadFor(timeout: int, now: int, polls: seq<Observation>): (r: Read)
    ensures timeout == 0 ==> r != TimedOut && r == AwaitResult(polls)
    ensures timeout != 0 ==> r == AwaitResultBefore(polls, now + timeout)
  {
    if timeout == 0 then AwaitResult(polls) else AwaitResultBefore(polls, now + timeout)
  }

  /** Removing a key shrinks a map by one exactly when the key was there. */
  lemma RemoveShrinks<V>(m: map<string, V>, url: string)
    ensures url in m ==> |m - {url}| == |m| - 1
    ensures url !in m ==> m - {url} == m
  {
  }

  /** Adding a key grows a map by one exactly when the key was new. */
  lemma InsertGrows<V>(m: map<string, V>, url: string, v: V)
    ensures url !in m ==> |m[url := v]| == |m| + 1
    ensures url in m ==> |m[url := v]| == |m|
  {
  }

  /** The package-level `rollingCaches` map (functions.go:7) and the operations on it. */
  class Registry {
    var caches: map<string, Cache>

    /** Every cache sits under its own URL and keeps its own invariant. */
    ghost predicate Valid()
      reads this, caches.Values
    {
      forall url :: url in caches ==> caches[url].url == url && caches[url].Valid()
    }

    /** The empty map the package starts with. */
    constructor ()
      ensures Valid() && caches == map[]
    {
      caches := map[];
    }

    /** The number of running caches (functions.go:10-12). */
    function Count(): (n: nat)
      reads this
      ensures n == |caches.Keys|
    {
      |caches|
    }

    /**
     * Creates a cache for `url` and puts it in the map (functions.go:54-72),
     * replacing any cache already there. Its update loop is not started here:
     * the model drives loops with `UpdateIteration`.
     */
    method Start(url: string, options: Options, now: int) returns (r: Result<Cache, StartError>)
      requires Valid()
      modifies this
      ensures Valid()
      ensures r.Failure? <==> !IntervalSet(options)
      ensures r.Failure? ==> caches == old(caches)
      ensures r.Success? ==>
        fresh(r.value) && r.value.Valid() &&
        caches == old(caches)[url := r.value] &&
        r.value.url == url && r.value.options == options &&
        r.value.lastRequest == now && r.value.data == None &&
        !r.value.success && r.value.lastUpdate == None
      ensures r.Success? ==> Count() == if url in old(caches) then old(Count()) else old(Count()) + 1
    {
      if options.interval == 0 {
        return Failure(IntervalNotSet);
      }
      var c := new Cache(url, options, now);
      InsertGrows(caches, url, c);
      caches := caches[url := c];
      r := Success(c);
    }

    /**
     * Deletes `url` from the map, as an expiring update loop does
     * (cache.go:181); a URL that is not there leaves the map as it is.
     */
    method Remove(url: string)
      requires Valid()
      modifies this
      ensures Valid()
      ensures caches == old(caches) - {url}
      ensures url in old(caches) ==> Count() == old(Count()) - 1
      ensures url !in old(caches) ==> caches == old(caches)
    {
      RemoveShrinks(caches, url);
      caches := caches - {url};
    }

    /**
     * One iteration of the update loop of `c` (cache.go:83-181): when the
     * cache has expired the loop ends and deletes its URL from the map;
     * otherwise it runs a cycle and picks the delay.
     */
    method UpdateIteration(c: Cache, now: int, outcomes: seq<Outcome>) returns (step: Step)
      requires Valid() && c.Valid()
      modifies this, c`data, c`success, c`lastUpdate
      ensures Valid() && c.Valid()
      ensures step.Expired? <==> IsExpired(c.options, c.lastRequest, now)
      ensures step.Expired? ==>
        caches == old(caches) - {c.url} &&
        c.data == old(c.data) && c.success == old(c.success) && c.lastUpdate == old(c.lastUpdate)
      ensures !step.Expired? ==>
        caches == old(caches) &&
        step.cycle == Cycle(c.options.maxRetries, outcomes) && c.CycleApplied(step.cycle, now)
      ensures step.StillRetrying? <==> !step.Expired? && step.cycle.Retrying?
      ensures step.Sleep? ==> step.delay == (if step.cycle.Succeeded? then c.options.interval else c.options.failInterval)
    {
      step := c.UpdateStep(now, outcomes);
      if step.Expired? {
        Remove(c.url);
      }
    }

    /**
     * Get-or-create followed by a read (functions.go:39-51). A URL already in
     * the map reuses its cache and leaves the map as it is; a new URL is
     * started first, which fails without an interval. `later` are the polls
     * the reader makes after its first look at the cache's data.
     */
    method GetWithOptionsTimeout(url: string, options: Options, timeout: int, now: int, later: seq<Observation>)
      returns (r: Result<Read, StartError>)
      requires Valid()
      modifies this, (if url in caches then {caches[url]} else {})`lastRequest
      ensures Valid()
      ensures url in old(caches) ==>
        caches == old(caches) && caches[url].lastRequest == now &&
        caches[url].data == old(caches[url].data) &&
        r == Success(ReadFor(timeout, now, [Observation(now, old(caches[url].data))] + later))
      ensures url !in old(caches) && !IntervalSet(options) ==>
        caches == old(caches) && r == Failure(IntervalNotSet)
      ensures url !in old(caches) && IntervalSet(options) ==>
        url in caches && fresh(caches[url]) && caches == old(caches)[url := caches[url]] &&
        caches[url].url == url && caches[url].options == options && caches[url].lastRequest == now &&
        caches[url].data == None && !caches[url].success && caches[url].lastUpdate == None &&
        r == Success(ReadFor(timeout, now, [Observation(now, None)] + later))
    {
      var c: Cache;
      if url in caches {
        c := caches[url];
      } else {
        var started := Start(url, options, now);
        if started.Failure? {
          return Failure(IntervalNotSet);
        }
        c := started.value;
      }
      var read: Read;
      if timeout == 0 {
        read := c.Get(now, later);
      } else {
        read := c.GetWithTimeout(now, timeout, later);
      }
      r := Success(read);
    }

    /** `GetWithOptionsTimeout` with timeout 0: the blocking read (functions.go:33-35). */
    method GetWithOptions(url: string, options: Options, now: int, later: seq<Observation>)
      returns (r: Result<Read, StartError>)
      requires Valid()
      modifies this, (if url in caches then {caches[url]} else {})`lastRequest
      ensures Valid()
      ensures r.Success? ==> r.value != TimedOut
      ensures url in old(caches) ==>
        caches == old(caches) && caches[url].lastRequest == now &&
        caches[url].data == old(caches[url].data) &&
        r == Success(AwaitResult([Observation(now, old(caches[url].data))] + later))
      ensures url !in old(caches) ==>
        (r.Failure? <==> !IntervalSet(options)) &&
        (r.Failure? ==> caches == old(caches)) &&
        (r.Success? ==>
          url in caches && fresh(caches[url]) && caches == old(caches)[url := caches[url]] &&
          caches[url].options == options && caches[url].lastRequest == now && caches[url].data == None &&
          r.value == AwaitResult([Observation(now, None)] + later))
    {
      r := GetWithOptionsTimeout(url, options, 0, now, later);
    }

    /**
     * The convenience reader (functions.go:16-21): blocking, with the wrapper
     * options, whose lifetime is ten intervals.
     */
    method Get(url: string, interval: int, now: int, later: seq<Observation>)
      returns (r: Result<Read, StartError>)
      requires Valid() && IsInt64(interval)
      modifies this, (if url in caches then {caches[url]} else {})`lastRequest
      ensures Valid()
      ensures r.Success? ==> r.value != TimedOut
      ensures url in old(caches) ==>
        caches == old(caches) && caches[url].lastRequest == now &&
        caches[url].data == old(caches[url].data) &&
        r == Success(AwaitResult([Observation(now, old(caches[url].data))] + later))
      ensures url !in old(caches) ==>
        (r.Failure? <==> interval == 0) &&
        (r.Failure? ==> caches == old(caches)) &&
        (r.Success? ==>
          url in caches && fresh(caches[url]) && caches == old(caches)[url := caches[url]] &&
          caches[url].options == WrapperOptions(interval) &&
          caches[url].lastRequest == now && caches[url].data == None &&
          r.value == AwaitResult([Observation(now, None)] + later))
    {
      r := GetWithOptions(url, WrapperOptions(interval), now, later);
    }

    /** The convenience reader with a timeout (functions.go:25-30). */
    method GetWithTimeout(url: string, interval: int, timeout: int, now: int, later: seq<Observation>)
      returns (r: Result<Read, StartError>)
      requires Valid() && IsInt64(interval)
      modifies this, (if url in caches then {caches[url]} else {})`lastRequest
      ensures Valid()
      ensures url in old(caches) ==>
        caches == old(caches) && caches[url].lastRequest == now &&
        caches[url].data == old(caches[url].data) &&
        r == Success(ReadFor(timeout, now, [Observation(now, old(caches[url].data))] + later))
      ensures url !in old(caches) ==>
        (r.Failure? <==> interval == 0) &&
        (r.Failure? ==> caches == old(caches)) &&
        (r.Success? ==>
          url in caches && fresh(caches[url]) && caches == old(caches)[url := caches[url]] &&
          caches[url].options == WrapperOptions(interval) &&
          caches[url].lastRequest == now && caches[url].data == None &&
          r.value == ReadFor(timeout, now, [Observation(now, None)] + later))
    {
      r := GetWithOptionsTimeout(url, WrapperOptions(interval), timeout, now, later);
    }
  }
}
