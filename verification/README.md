# go-rollingcache in Dafny

A model of the Go package `rollingcache`. The package keeps one background-refreshed
cache per URL. Each cache re-fetches its URL on a fixed interval, retries failed
fetches within a cycle, keeps the latest good payload for readers, and retires itself
once no reader has asked for it within its lifetime.

The model has four modules:

- `Common` (common.dfy, shared by all modules): `Option`, `Result`, `byte`, and Go's int64 wrap-around.
- `CacheOptions` (options.dfy, modelling options.go): the `Options` record and its sentinels. `lifetime == 0` means
  the cache never expires. `maxRetries == -1` means a cycle never gives up. A cache may
  only start with a non-zero `interval`. The record also carries `failInterval`: options.go
  does not declare it, but cache.go:176 and the example program use it.
- `CacheEntry` (cache.dfy, modelling cache.go): the fetch outcome and its classification, the refresh cycle, the
  expiry check, the `Cache` class with the update-loop step, and the two readers.
- `RollingCache` (registry.dfy, modelling functions.go): the `Registry` class holding the `rollingCaches` map, with
  `Count`, `Start`, get-or-create, the convenience wrappers, and the removal that an
  expiring loop performs (cache.go:181).

The network and the clock are inputs:

- A fetch attempt is an `Outcome`. It is either `TransportError` or
  `Response(status, body)`, where `body == None` means the body read failed.
- A cycle consumes a sequence of outcomes, one per attempt, in order. If the sequence runs
  out while the cycle would still retry, the cycle result is `Retrying`. This is a prefix of
  a run that goes on.
- Time is an integer `now`.
- A waiting reader sees a sequence of `Observation(at, data)` polls. The first poll is the
  cache's own `data` at `now`. Later polls are what the concurrently running update loop
  has written meanwhile.

`Cycle` is the specification of the retry loop. `Cache.RefreshCycle` is the loop itself,
proved against it. The lemmas `CycleSucceeded`, `CycleGaveUp` and `CycleRetrying`
characterise each kind of result independently of the recursion. `Cache.Available`
(cache.go:31-33) is `data.Some?`. `RefreshCycle` keeps it true once it is true. The readers
may change only `lastRequest`: `Cache.Get` and `Cache.GetWithTimeout` modify only that field,
and the registry readers modify only that field of the one cache they read. The registry's
invariant includes every cache's own invariant, so it holds after any registry read.

Where the code and its documentation disagree, the model follows the code:

- `Start` rejects only `interval == 0`. A negative interval is accepted.
- `failInterval` is not defaulted to `interval`. A caller that leaves it out gets Go's zero
  value, so a failed cycle is followed by no delay at all.
- The payload is replaced only by a successful attempt, never by a failed one.

## Model

| member | source | states |
|---|---|---|
| Common.WrapInt64 | functions.go:19 | the int64 result of a Duration product: in range, congruent to the exact product modulo 2^64, and equal to it when it fits |
| CacheOptions.WrapperOptions | functions.go:16-29 | the wrappers' options: the given interval, a lifetime of ten intervals (wrapped to int64), and zero fail interval and retries; a positive interval whose product fits gives a finite lifetime |
| CacheEntry.Payload | cache.go:106-157 | an attempt yields a payload exactly when there was no transport error, the status is 200..299 and the body read succeeded; the payload is the body |
| CacheEntry.AttemptCap | cache.go:110 | under a cap, the give-up test holds exactly from the retry counter value cap-1 on; a negative cap other than -1 gives up at once |
| CacheEntry.RunAttemptsSucceeded | cache.go:94-170 | from any counter value: a success is the first successful outcome, all earlier ones failed, and within the cap |
| CacheEntry.RunAttemptsGaveUp | cache.go:107-157 | from any counter value: giving up needs a cap, all attempts failed, and it happens exactly at the cap |
| CacheEntry.RunAttemptsRetrying | cache.go:116-117 | from any counter value: retrying on means every given outcome failed, and the cap is not reached |
| CacheEntry.CycleSucceeded | cache.go:159-169 | a successful cycle stored the body of its last attempt; every earlier attempt failed; at most cap attempts were made; later outcomes are not requested |
| CacheEntry.CycleGaveUp | cache.go:110-114 | a cycle that gives up had a cap (not -1) and made exactly that many attempts, all failed |
| CacheEntry.CycleRetrying | cache.go:93-129 | a cycle still retrying has seen only failures and has not reached its cap |
| CacheEntry.UnlimitedRetriesNeverGiveUp | cache.go:110 | with maxRetries -1 a cycle never ends in failure |
| CacheEntry.CappedCycleEnds | cache.go:93-116 | with a cap, a cycle given cap attempts always ends and makes at most `AttemptCap(maxRetries)` attempts (`maxRetries + 1` when `maxRetries >= 0`, else 1); the counter starts at 0 each cycle, so no count carries over |
| CacheEntry.FirstSuccessWins | cache.go:145-169 | the first successful outcome within the cap decides the cycle, with its body and its attempt number |
| CacheEntry.FourthAttemptSucceeds | cache.go:93-169 | with three retries, three failures then a success end the cycle with the fourth attempt's body |
| CacheEntry.NoRetriesGiveUpAtOnce | cache.go:110-114 | with maxRetries 0 the first failure ends the cycle after one attempt |
| CacheEntry.AsWrittenDiffersOnTransportGiveUp | cache.go:107-117 | the code as written behaves like the model except that giving up right after a transport error dereferences a nil response |
| CacheEntry.AsWrittenPanicsWithoutRetries | cache.go:110-114 | the input that shows the nil dereference: maxRetries 0 and one transport error |
| CacheEntry.ExpiryMeaning | cache.go:85 | lifetime 0 never expires; otherwise the cache expires exactly when more than lifetime has passed since the last request |
| CacheEntry.ExpiryPersists | cache.go:85-90 | once expired, a cache stays expired at every later time unless a reader stamps a new request |
| CacheEntry.AwaitResult | cache.go:41-54 | the blocking read never times out; it returns the data of the first poll that saw data, or keeps waiting when no poll did |
| CacheEntry.AwaitResultBefore | cache.go:63-79 | the bounded read returns the first data seen before the deadline, times out exactly when a poll reaches the deadline before any data, and keeps waiting otherwise |
| CacheEntry.AwaitData | cache.go:41-51 | the polling loop of Get computes AwaitResult |
| CacheEntry.AwaitDataBefore | cache.go:66-79 | the polling loop of GetWithTimeout computes AwaitResultBefore |
| CacheEntry.Cache.constructor | functions.go:61-65 | a new cache has the URL and options given, LastRequest = now, no data, no success, no update time |
| CacheEntry.Cache.RefreshCycle | cache.go:92-170 | one cycle: the result is Cycle of the outcomes; a success writes Data, Success = true and LastUpdate = now; giving up writes only Success = false; Available stays true once true |
| CacheEntry.Cache.UpdateStep | cache.go:83-177 | stops exactly when lifetime != 0 and now > LastRequest + lifetime, changing nothing; otherwise runs a cycle and sleeps Interval after a success and FailInterval after a failure |
| CacheEntry.Cache.Get | cache.go:36-55 | stamps LastRequest = now, leaves Data alone, and returns the present data at once |
| CacheEntry.Cache.GetWithTimeout | cache.go:58-80 | stamps LastRequest = now, leaves Data alone, returns present data at once for a positive timeout, and times out at once for a timeout <= 0 |
| RollingCache.ReadFor | functions.go:46-50 | timeout 0 selects the blocking read, which never times out; any other timeout selects the bounded read |
| RollingCache.RemoveShrinks | cache.go:181 | deleting a present URL shrinks the map by one; deleting an absent URL changes nothing |
| RollingCache.InsertGrows | functions.go:66 | inserting a new URL grows the map by one; replacing one keeps its size |
| RollingCache.Registry.constructor | functions.go:7 | the registry starts empty |
| RollingCache.Registry.Count | functions.go:10-12 | the number of URLs in the map; a function, so it changes nothing |
| RollingCache.Registry.Start | functions.go:54-72 | fails exactly when Interval == 0 and then inserts nothing; otherwise maps url to a fresh cache with that URL, the options unchanged, LastRequest = now and no data; every other key keeps its entry |
| RollingCache.Registry.Remove | cache.go:181 | deletes only that URL; Count drops by one if it was present, and nothing changes otherwise |
| RollingCache.Registry.UpdateIteration | cache.go:82-182 | an expired cache's loop removes its URL from the map and changes nothing else; any other iteration leaves the map alone and applies one cycle and the delay choice |
| RollingCache.Registry.GetWithOptionsTimeout | functions.go:39-51 | a URL already present reuses its cache without starting one, leaving the map unchanged and its data untouched; a new URL is started (failing without an interval) and becomes a key with a fresh cache; only the read cache's LastRequest changes, to now; the read is chosen by the timeout |
| RollingCache.Registry.GetWithOptions | functions.go:33-35 | get-or-create, then a blocking read that never times out; only the read cache's LastRequest changes, to now |
| RollingCache.Registry.Get | functions.go:16-21 | get-or-create with the wrapper options (lifetime ten intervals), then a blocking read of the first data polled; only the read cache's LastRequest changes, to now |
| RollingCache.Registry.GetWithTimeout | functions.go:25-30 | get-or-create with the wrapper options, then the read chosen by the timeout; only the read cache's LastRequest changes, to now |

## Findings

| source | as written | input that shows it | evidently intended | confidence | as-written member | corrected member |
|---|---|---|---|---|---|---|
| cache.go:112 | after a transport error, the give-up branch logs `resp.Status`, but `resp` is nil there, so the update goroutine panics | maxRetries = 0 and an attempt that ends in a transport error | give up like the other failure branches: Success = false, Data and LastUpdate kept, then sleep FailInterval | high (not executed) | CacheEntry.AsWrittenPanicsWithoutRetries | CacheEntry.CycleGaveUp |

The model uses the corrected behaviour: `RunAttempts` and `Cache.RefreshCycle` give up after
a transport error just as after a bad status or a failed body read.

## Left out

- The HTTP transport is left out: request construction, the package-level headers, the
  client call and the body read (cache.go:100-104, 145). These are calls into code that is
  not part of this model, so each attempt's result is an `Outcome` input.
- Real time and sleeping are left out. The clock is an integer `now`. A sleep is the delay
  that `Step.Sleep` returns. The 1 ms polls of the readers are a sequence of observations.
- Goroutines are left out. `Start` does not spawn the update loop (functions.go:69); loops
  are driven one iteration at a time with `Registry.UpdateIteration`. Data races between the
  loop, the readers and the map are not modelled, and neither is the race between two
  callers creating the same URL. The sequential semantics are modelled.
- Logging is left out: the `fmt.Printf` calls, including the `debug` ones. No member reads
  `Options.debug`, so every result is the same with it on or off.
- Timestamps and the retry counter are unbounded integers. The overflow of `time.Time.Add`
  and of Go's `int` counter is not modelled. The one Duration product, `interval * 10`,
  is wrapped to int64 explicitly.
- cache.go:133-142 is dead code: `err` is already nil there. It has no counterpart.
- The panic of `Start` on a zero interval is the error result `IntervalNotSet`. It reaches
  the caller of `GetWithOptionsTimeout` as a `Failure`, not as a panic.
- A blocking `Get` whose polls never see data returns `Waiting` after the given polls. It
  does not block forever.
- `Start` on a URL that is already present replaces the entry. In Go the old loop keeps
  running and, on expiry, deletes whatever the map then holds under that URL. The model
  keeps no orphaned loops; `Remove` deletes by URL as the Go code does.
- The example program (example/main.go) is not part of this model: it is a demo server
  and driver with randomness and I/O.
