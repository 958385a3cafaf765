/**
 * One rolling cache (cache.go): the entry that holds the latest payload of a URL,
 * the refresh cycle that fetches it with retries, the expiry check and the
 * delay choice of the update loop, and the two readers.
 *
 * The transport is abstracted away: every fetch attempt is an `Outcome` given
 * as input, in the order the attempts are made. Time is an integer `now`.
 */
module CacheEntry {
  import opened Common
  import opened CacheOptions

  // ---------------------------------------------------------------------------
  // Fetch attempts
  // ---------------------------------------------------------------------------

  /** What the transport delivers for one request of the URL. */
  datatype Outcome =
    | TransportError                                  // the client returned an error
    | Response(status: int, body: Option<seq<byte>>)  // body None: reading the body failed

  /** The "Successful 2xx" class of section 15.3 of RFC 9110, the only statuses accepted. */
  predicate IsSuccessStatus(status: int) {
    200 <= status <= 299
  }

  /** The payload an attempt delivers, or None when the attempt counts as failed (cache.go:107-157). */
  function Payload(o: Outcome): (p: Option<seq<byte>>)
    ensures p.Some? <==> o.Response? && IsSuccessStatus(o.status) && o.body.Some?
    ensures p.Some? ==> p == o.body
  {
    match o
    case TransportError => None
    case Response(status, body) =>
      if status < 200 || status > 299 then None  // the body is not read at all
      else body
  }

  predicate Failed(o: Outcome) {
    Payload(o).None?
  }

  // ---------------------------------------------------------------------------
  // One refresh cycle
  // ---------------------------------------------------------------------------

  /** The test a failed attempt makes with the cycle's retry counter (cache.go:110, 122, 149). */
  predicate GivesUp(maxRetries: int, retry: nat) {
    maxRetries != -1 && retry >= maxRetries
  }

  /**
   * How many attempts a capped cycle makes when all of them fail. A negative
   * setting other than -1 gives up after the first failure.
   */
  function AttemptCap(maxRetries: int): (n: nat)
    requires maxRetries != -1
    ensures n >= 1
    ensures forall retry: nat :: GivesUp(maxRetries, retry) <==> retry >= n - 1
  {
    if maxRetries < 0 then 1 else maxRetries + 1
  }

  /** How a cycle ends, with the number of fetch attempts it made. */
  datatype CycleResult =
    | Succeeded(body: seq<byte>, attempts: nat)
    | GaveUp(attempts: nat)
    | Retrying(attempts: nat)  // every given attempt failed and the cycle would retry once more

  /**
   * The retry loop of cache.go:94-170 from retry counter `retry` on; `outcomes`
   * are the attempts still to be made. Each failed attempt either ends the cycle
   * or increments the counter and retries at once.
   */
  function RunAttempts(maxRetries: int, outcomes: seq<Outcome>, retry: nat): CycleResult
    decreases |outcomes|
  {
    if outcomes == [] then Retrying(retry)
    else
      match Payload(outcomes[0])
      case Some(body) => Succeeded(body, retry + 1)
      case None =>
        if GivesUp(maxRetries, retry) then GaveUp(retry + 1)
        else RunAttempts(maxRetries, outcomes[1..], retry + 1)
  }

  /** A whole cycle: the retry counter starts at 0 for every cycle (cache.go:93). */
  function Cycle(maxRetries: int, outcomes: seq<Outcome>): CycleResult {
    RunAttempts(maxRetries, outcomes, 0)
  }

  lemma {:induction false} RunAttemptsSucceeded(maxRetries: int, outcomes: seq<Outcome>, retry: nat)
    requires RunAttempts(maxRetries, outcomes, retry).Succeeded?
    ensures var r := RunAttempts(maxRetries, outcomes, retry);
      retry < r.attempts <= retry + |outcomes| &&
      Payload(outcomes[r.attempts - retry - 1]) == Some(r.body) &&
      (forall j :: 0 <= j < r.attempts - retry - 1 ==> Failed(outcomes[j])) &&
      (maxRetries != -1 && retry < AttemptCap(maxRetries) ==> r.attempts <= AttemptCap(maxRetries))
    decreases |outcomes|
  {
    if Payload(outcomes[0]).None? {
      RunAttemptsSucceeded(maxRetries, outcomes[1..], retry + 1);
    }
  }

  lemma {:induction false} RunAttemptsGaveUp(maxRetries: int, outcomes: seq<Outcome>, retry: nat)
    requires RunAttempts(maxRetries, outcomes, retry).GaveUp?
    ensures var r := RunAttempts(maxRetries, outcomes, retry);
      maxRetries != -1 &&
      retry < r.attempts <= retry + |outcomes| &&
      (forall j :: 0 <= j < r.attempts - retry ==> Failed(outcomes[j])) &&
      (retry < AttemptCap(maxRetries) ==> r.attempts == AttemptCap(maxRetries))
    decreases |outcomes|
  {
    if !GivesUp(maxRetries, retry) {
      RunAttemptsGaveUp(maxRetries, outcomes[1..], retry + 1);
    }
  }

  lemma {:induction false} RunAttemptsRetrying(maxRetries: int, outcomes: seq<Outcome>, retry: nat)
    requires RunAttempts(maxRetries, outcomes, retry).Retrying?
    ensures var r := RunAttempts(maxRetries, outcomes, retry);
      r.attempts == retry + |outcomes| &&
      (forall j :: 0 <= j < |outcomes| ==> Failed(outcomes[j])) &&
      (maxRetries != -1 && retry < AttemptCap(maxRetries) ==> r.attempts < AttemptCap(maxRetries))
    decreases |outcomes|
  {
    if outcomes != [] {
      RunAttemptsRetrying(maxRetries, outcomes[1..], retry + 1);
    }
  }

  /**
   * A cycle that succeeds took the body of its last attempt, every earlier
   * attempt failed, and later outcomes were never requested.
   */
  lemma {:induction false} CycleSucceeded(maxRetries: int, outcomes: seq<Outcome>)
    requires Cycle(maxRetries, outcomes).Succeeded?
    ensures var r := Cycle(maxRetries, outcomes);
      1 <= r.attempts <= |outcomes| &&
      Payload(outcomes[r.attempts - 1]) == Some(r.body) &&
      (forall j :: 0 <= j < r.attempts - 1 ==> Failed(outcomes[j])) &&
      (maxRetries != -1 ==> r.attempts <= AttemptCap(maxRetries))
  {
    RunAttemptsSucceeded(maxRetries, outcomes, 0);
  }

  /** A cycle gives up only under a cap, after exactly the capped number of failed attempts. */
  lemma {:induction false} CycleGaveUp(maxRetries: int, outcomes: seq<Outcome>)
    requires Cycle(maxRetries, outcomes).GaveUp?
    ensures var r := Cycle(maxRetries, outcomes);
      maxRetries != -1 &&
      r.attempts == AttemptCap(maxRetries) <= |outcomes| &&
      forall j :: 0 <= j < r.attempts ==> Failed(outcomes[j])
  {
    RunAttemptsGaveUp(maxRetries, outcomes, 0);
  }

  /** A cycle is still retrying only if every given attempt failed and the cap was not reached. */
  lemma {:induction false} CycleRetrying(maxRetries: int, outcomes: seq<Outcome>)
    requires Cycle(maxRetries, outcomes).Retrying?
    ensures var r := Cycle(maxRetries, outcomes);
      r.attempts == |outcomes| &&
      (forall j :: 0 <= j < |outcomes| ==> Failed(outcomes[j])) &&
      (maxRetries != -1 ==> |outcomes| < AttemptCap(maxRetries))
  {
    RunAttemptsRetrying(maxRetries, outcomes, 0);
  }

  /** With `maxRetries == -1` a cycle never ends in failure: it ends only by a success. */
  lemma {:induction false} UnlimitedRetriesNeverGiveUp(maxRetries: int, outcomes: seq<Outcome>)
    requires maxRetries == -1
    ensures !Cycle(maxRetries, outcomes).GaveUp?
  {
    if Cycle(maxRetries, outcomes).GaveUp? {
      CycleGaveUp(maxRetries, outcomes);
    }
  }

  /** With a cap, a cycle given at least that many attempts always ends, after at most the cap. */
  lemma {:induction false} CappedCycleEnds(maxRetries: int, outcomes: seq<Outcome>)
    requires maxRetries != -1 && |outcomes| >= AttemptCap(maxRetries)
    ensures !Cycle(maxRetries, outcomes).Retrying?
    ensures Cycle(maxRetries, outcomes).attempts <= AttemptCap(maxRetries)
  {
    match Cycle(maxRetries, outcomes)
    case Succeeded(_, _) => CycleSucceeded(maxRetries, outcomes);
    case GaveUp(_) => CycleGaveUp(maxRetries, outcomes);
    case Retrying(_) => CycleRetrying(maxRetries, outcomes);
  }

  /** The first attempt that succeeds within the cap decides the cycle. */
  lemma {:induction false} FirstSuccessWins(maxRetries: int, outcomes: seq<Outcome>, k: nat)
    requires k < |outcomes| && Payload(outcomes[k]).Some?
    requires forall j :: 0 <= j < k ==> Failed(outcomes[j])
    requires maxRetries == -1 || k < AttemptCap(maxRetries)
    ensures Cycle(maxRetries, outcomes) == Succeeded(Payload(outcomes[k]).value, k + 1)
  {
    var i := 0;
    while i < k
      invariant 0 <= i <= k
      invariant Cycle(maxRetries, outcomes) == RunAttempts(maxRetries, outcomes[i..], i)
    {
      assert outcomes[i..][1..] == outcomes[i + 1..];
      i := i + 1;
    }
  }

  /** The two scenarios of a capped setting: three failures then a success with three retries allowed, ... */
  lemma FourthAttemptSucceeds(body: seq<byte>)
    ensures Cycle(3, [TransportError, Response(500, None), Response(200, None), Response(204, Some(body))])
      == Succeeded(body, 4)
  {
    FirstSuccessWins(3, [TransportError, Response(500, None), Response(200, None), Response(204, Some(body))], 3);
  }

  /** ... and no retry at all when `maxRetries == 0`: the first failure ends the cycle. */
  lemma {:induction false} NoRetriesGiveUpAtOnce(outcomes: seq<Outcome>)
    requires outcomes != [] && Failed(outcomes[0])
    ensures Cycle(0, outcomes) == GaveUp(1)
  {
  }

  // ---------------------------------------------------------------------------
  // The cycle as written: the give-up branch after a transport error
  // ---------------------------------------------------------------------------

  /** A cycle of cache.go as written either completes or crashes. */
  datatype WrittenCycle = Completed(result: CycleResult) | NilDereference

  /**
   * RunAttempts as cache.go:107-117 is written: when the cycle gives up after a
   * transport error, the log line at cache.go:112 reads `resp.Status` while
   * `resp` is nil, which makes the goroutine panic.
   */
  function RunAttemptsAsWritten(maxRetries: int, outcomes: seq<Outcome>, retry: nat): WrittenCycle
    decreases |outcomes|
  {
    if outcomes == [] then Completed(Retrying(retry))
    else
      match Payload(outcomes[0])
      case Some(body) => Completed(Succeeded(body, retry + 1))
      case None =>
        if GivesUp(maxRetries, retry) then
          if outcomes[0].TransportError? then NilDereference else Completed(GaveUp(retry + 1))
        else RunAttemptsAsWritten(maxRetries, outcomes[1..], retry + 1)
  }

  /** The code as written differs from the model exactly when the last attempt of a failed cycle is a transport error. */
  lemma {:induction false} AsWrittenDiffersOnTransportGiveUp(maxRetries: int, outcomes: seq<Outcome>, retry: nat)
    ensures var r := RunAttempts(maxRetries, outcomes, retry);
      RunAttemptsAsWritten(maxRetries, outcomes, retry) ==
        if r.GaveUp? && retry < r.attempts <= retry + |outcomes| && outcomes[r.attempts - retry - 1].TransportError?
        then NilDereference
        else Completed(r)
    decreases |outcomes|
  {
    if outcomes != [] && Payload(outcomes[0]).None? && !GivesUp(maxRetries, retry) {
      AsWrittenDiffersOnTransportGiveUp(maxRetries, outcomes[1..], retry + 1);
      var r := RunAttempts(maxRetries, outcomes[1..], retry + 1);
      if r.GaveUp? {
        RunAttemptsGaveUp(maxRetries, outcomes[1..], retry + 1);
        assert outcomes[1..][r.attempts - retry - 2] == outcomes[r.attempts - retry - 1];
      }
    }
  }

  /** The input that shows it: no retries allowed and the single attempt fails in the transport. */
  lemma AsWrittenPanicsWithoutRetries()
    ensures RunAttemptsAsWritten(0, [TransportError], 0) == NilDereference
    ensures Cycle(0, [TransportError]) == GaveUp(1)
  {
  }

  // ---------------------------------------------------------------------------
  // Expiry
  // ---------------------------------------------------------------------------

  /** The check at the top of every update-loop iteration (cache.go:85). */
  predicate IsExpired(o: Options, lastRequest: int, now: int) {
    o.lifetime != 0 && now > lastRequest + o.lifetime
  }

  /** Lifetime 0 never expires; any other lifetime expires once `now` is past `lastRequest + lifetime`. */
  lemma ExpiryMeaning(o: Options, lastRequest: int, now: int)
    ensures UnlimitedLifetime(o) ==> !IsExpired(o, lastRequest, now)
    ensures !UnlimitedLifetime(o) ==> (IsExpired(o, lastRequest, now) <==> now - lastRequest > o.lifetime)
  {
  }

  /** Expiry is permanent unless a reader stamps a new request time. */
  lemma ExpiryPersists(o: Options, lastRequest: int, now: int, later: int)
    requires IsExpired(o, lastRequest, now) && now <= later
    ensures IsExpired(o, lastRequest, later)
  {
  }

  // ---------------------------------------------------------------------------
  // Readers
  // ---------------------------------------------------------------------------

  /**
   * One poll of a waiting reader: the time it read the clock and the value
   * `Data` held then. Polls after the first stand for what the concurrently
   * running update loop has written in the meantime.
   */
  datatype Observation = Observation(at: int, data: Option<seq<byte>>)

  /** What a reader returns: the payload, the timeout error, or nothing yet (it is still polling). */
  datatype Read = Ready(data: seq<byte>) | TimedOut | Waiting

  /** Poll `i` is the first one that saw data. */
  ghost predicate FirstDataAt(polls: seq<Observation>, i: int) {
    0 <= i < |polls| && polls[i].data.Some? &&
    forall j :: 0 <= j < i ==> polls[j].data.None?
  }

  /** The blocking reader's answer (cache.go:41-54): the first data seen; it never times out. */
  function AwaitResult(polls: seq<Observation>): (r: Read)
    ensures r != TimedOut
    ensures r.Waiting? <==> forall i :: 0 <= i < |polls| ==> polls[i].data.None?
    ensures r.Ready? ==> exists i :: FirstDataAt(polls, i) && polls[i].data == Some(r.data)
  {
    if polls == [] then Waiting
    else if polls[0].data.Some? then Ready(polls[0].data.value)
    else
      var r := AwaitResult(polls[1..]);
      assert r.Ready? ==> exists i :: FirstDataAt(polls, i) && polls[i].data == Some(r.data) by {
        if r.Ready? {
          var i :| FirstDataAt(polls[1..], i) && polls[1..][i].data == Some(r.data);
          assert FirstDataAt(polls, i + 1);
        }
      }
      r
  }

  /** Poll `i` is the first one at or after the deadline, and no earlier poll saw data. */
  ghost predicate DeadlineAt(polls: seq<Observation>, deadline: int, i: int) {
    0 <= i < |polls| && polls[i].at >= deadline &&
    forall j :: 0 <= j < i ==> polls[j].at < deadline && polls[j].data.None?
  }

  /**
   * The bounded reader's answer (cache.go:66-79): each poll first compares the
   * clock with the deadline and then looks for data.
   */
  function AwaitResultBefore(polls: seq<Observation>, deadline: int): (r: Read)
    ensures r.Ready? ==> exists i :: FirstDataAt(polls, i) && polls[i].data == Some(r.data) && polls[i].at < deadline
    ensures r.TimedOut? <==> exists i :: DeadlineAt(polls, deadline, i)
    ensures r.Waiting? <==> forall i :: 0 <= i < |polls| ==> polls[i].at < deadline && polls[i].data.None?
  {
    if polls == [] then Waiting
    else if polls[0].at >= deadline then
      assert DeadlineAt(polls, deadline, 0);
      TimedOut
    else if polls[0].data.Some? then
      assert FirstDataAt(polls, 0);
      Ready(polls[0].data.value)
    else
      var r := AwaitResultBefore(polls[1..], deadline);
      assert r.Ready? ==> exists i :: FirstDataAt(polls, i) && polls[i].data == Some(r.data) && polls[i].at < deadline by {
        if r.Ready? {
          var i :| FirstDataAt(polls[1..], i) && polls[1..][i].data == Some(r.data) && polls[1..][i].at < deadline;
          assert FirstDataAt(polls, i + 1);
        }
      }
      assert r.TimedOut? <==> exists i :: DeadlineAt(polls, deadline, i) by {
        if r.TimedOut? {
          var i :| DeadlineAt(polls[1..], deadline, i);
          assert DeadlineAt(polls, deadline, i + 1);
        }
        if i :| DeadlineAt(polls, deadline, i) {
          assert i > 0;
          assert DeadlineAt(polls[1..], deadline, i - 1);
        }
      }
      r
  }

  /** The polling loop of `Get` (cache.go:41-51). */
  method AwaitData(polls: seq<Observation>) returns (r: Read)
    ensures r == AwaitResult(polls)
  {
    var i := 0;
    while i < |polls|
      invariant 0 <= i <= |polls|
      invariant AwaitResult(polls) == AwaitResult(polls[i..])
    {
      if polls[i].data.Some? {
        return Ready(polls[i].data.value);
      }
      assert polls[i..][1..] == polls[i + 1..];
      i := i + 1;
    }
    r := Waiting;
  }

  /** The polling loop of `GetWithTimeout` (cache.go:66-79). */
  method AwaitDataBefore(polls: seq<Observation>, deadline: int) returns (r: Read)
    ensures r == AwaitResultBefore(polls, deadline)
  {
    var i := 0;
    while i < |polls| && polls[i].at < deadline
      invariant 0 <= i <= |polls|
      invariant AwaitResultBefore(polls, deadline) == AwaitResultBefore(polls[i..], deadline)
    {
      if polls[i].data.Some? {
        return Ready(polls[i].data.value);
      }
      assert polls[i..][1..] == polls[i + 1..];
      i := i + 1;
    }
    r := if i < |polls| then TimedOut else Waiting;
  }

  // ---------------------------------------------------------------------------
  // The cache entry
  // ---------------------------------------------------------------------------

  /** What one iteration of the update loop does after its expiry check. */
  datatype Step =
    | Expired                                  // the loop stops; the caller removes the URL
    | Sleep(delay: int, cycle: CycleResult)    // the cycle ended; the loop sleeps `delay`
    | StillRetrying(cycle: CycleResult)        // the given attempts ran out inside the cycle

  class Cache {
    /** The URL this cache requests. */
    const url: string
    /** The options it was started with. */
    const options: Options
    /** The latest fetched payload; None (Go's nil) until the first success. */
    var data: Option<seq<byte>>
    /** Whether the latest completed cycle succeeded. */
    var success: bool
    /** When a reader last asked for the data. */
    var lastRequest: int
    /** When the data was last replaced; None is Go's zero time. */
    var lastUpdate: Option<int>

    /**
     * The payload and the update time are both set by a success and never
     * cleared; the success flag is true only after a success wrote a payload.
     */
    ghost predicate Valid()
      reads this
    {
      (data.Some? <==> lastUpdate.Some?) && (success ==> data.Some?)
    }

    /** The record `Start` allocates (functions.go:61-65). */
    constructor (url: string, options: Options, now: int)
      ensures Valid()
      ensures this.url == url && this.options == options
      ensures data == None && !success && lastRequest == now && lastUpdate == None
    {
      this.url := url;
      this.options := options;
      data := None;
      success := false;
      lastRequest := now;
      lastUpdate := None;
    }

    /** Whether a payload is available (cache.go:31-33). */
    function Available(): bool
      reads this
    {
      data.Some?
    }

    /** The effect a cycle with result `r`, run at time `now`, has on the entry. */
    twostate predicate CycleApplied(r: CycleResult, now: int)
      reads this
    {
      match r
      case Succeeded(body, _) =>
        data == Some(body) && success && lastUpdate == Some(now)
      case GaveUp(_) =>
        data == old(data) && !success && lastUpdate == old(lastUpdate)
      case Retrying(_) =>
        data == old(data) && success == old(success) && lastUpdate == old(lastUpdate)
    }

    /**
     * One refresh cycle (cache.go:92-170). The retry counter starts at 0; each
     * attempt takes the next outcome; a success stores its body and ends the
     * cycle, a failure gives up or retries at once.
     */
    method RefreshCycle(now: int, outcomes: seq<Outcome>) returns (result: CycleResult)
      requires Valid()
      modifies this`data, this`success, this`lastUpdate
      ensures Valid()
      ensures result == Cycle(options.maxRetries, outcomes)
      ensures CycleApplied(result, now)
      ensures old(Available()) ==> Available()
    {
      var retry: nat := 0;
      while retry < |outcomes|
        invariant retry <= |outcomes|
        invariant Cycle(options.maxRetries, outcomes) == RunAttempts(options.maxRetries, outcomes[retry..], retry)
        invariant data == old(data) && success == old(success) && lastUpdate == old(lastUpdate)
      {
        match Payload(outcomes[retry])
        case Some(body) =>
          data := Some(body);
          success := true;
          lastUpdate := Some(now);
          return Succeeded(body, retry + 1);
        case None =>
          // cache.go:112 dereferences a nil response here after a transport
          // error; the model gives up like the other failure branches.
          if GivesUp(options.maxRetries, retry) {
            success := false;
            return GaveUp(retry + 1);
          }
          assert outcomes[retry..][1..] == outcomes[retry + 1..];
          retry := retry + 1;
      }
      result := Retrying(retry);
    }

    /**
     * One iteration of the update loop (cache.go:83-177): the expiry check,
     * then a cycle, then the choice of the delay before the next iteration.
     */
    method UpdateStep(now: int, outcomes: seq<Outcome>) returns (step: Step)
      requires Valid()
      modifies this`data, this`success, this`lastUpdate
      ensures Valid()
      ensures step.Expired? <==> IsExpired(options, lastRequest, now)
      ensures step.Expired? ==> data == old(data) && success == old(success) && lastUpdate == old(lastUpdate)
      ensures !step.Expired? ==> step.cycle == Cycle(options.maxRetries, outcomes) && CycleApplied(step.cycle, now)
      ensures step.StillRetrying? <==> !step.Expired? && step.cycle.Retrying?
      ensures step.Sleep? ==> step.delay == (if success then options.interval else options.failInterval)
      ensures step.Sleep? ==> (success <==> step.cycle.Succeeded?)
    {
      if options.lifetime != 0 && now > lastRequest + options.lifetime {
        return Expired;
      }
      var result := RefreshCycle(now, outcomes);
      if result.Retrying? {
        return StillRetrying(result);
      }
      if success {
        step := Sleep(options.interval, result);
      } else {
        step := Sleep(options.failInterval, result);
      }
    }

    /**
     * The blocking reader (cache.go:36-55): stamps the request time, then polls
     * until data is there. The first poll sees this entry's own data at `now`.
     */
    method Get(now: int, later: seq<Observation>) returns (r: Read)
      modifies this`lastRequest
      ensures lastRequest == now
      ensures r == AwaitResult([Observation(now, data)] + later)
      ensures data.Some? ==> r == Ready(data.value)
    {
      lastRequest := now;
      var polls := [Observation(now, data)] + later;
      assert polls[0] == Observation(now, data);
      r := AwaitData(polls);
    }

    /**
     * The bounded reader (cache.go:58-80): like `Get`, but it gives up with a
     * timeout error once a poll finds the clock at or past `now + timeout`.
     */
    method GetWithTimeout(now: int, timeout: int, later: seq<Observation>) returns (r: Read)
      modifies this`lastRequest
      ensures lastRequest == now
      ensures r == AwaitResultBefore([Observation(now, data)] + later, now + timeout)
      ensures data.Some? && timeout > 0 ==> r == Ready(data.value)
      ensures timeout <= 0 ==> r == TimedOut
    {
      lastRequest := now;
      var polls := [Observation(now, data)] + later;
      assert polls[0] == Observation(now, data);
      r := AwaitDataBefore(polls, now + timeout);
    }
  }
}
