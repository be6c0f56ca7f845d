/**
 The six strict `Poll` overloads of Library/Poll.cs. Each either returns the
 value the check accepted or throws PollingTimeoutException, modelled as
 `Failure(PollingTimeout)`. The overloads without a check use
 `DefaultCheck<T>()`; those without a timeout or interval read the current
 process-wide settings, passed here as `settings`.

 Besides its return value each entry point hands back the trace of its
 producer calls and sleeps, which shows the interval it actually sleeps.
 */
module StrictPoll {
  import opened Wrappers
  import opened PollLoop
  import opened PollDefaults

  /** `Poll(toPoll)`: the current settings, through the (toPoll, timeout, interval) overload. */
  function PollDefault<U(==,!new)>(obs: seq<Observation<Option<U>>>, dflt: Option<U>, settings: Settings)
    : (a: StrictReturn<Option<U>>)
    requires Settles(obs, DefaultCheck(dflt), settings.timeout)
    ensures StrictResult(obs, DefaultCheck(dflt), settings.timeout, a.result)
    ensures RunTrace(obs, DefaultCheck(dflt), settings.timeout, settings.interval, a.trace)
  {
    PollTimeoutInterval(obs, dflt, settings.timeout, settings.interval)
  }

  /** `Poll(toPoll, timeout)`: the default check and the current interval. */
  function PollTimeout<U(==,!new)>(obs: seq<Observation<Option<U>>>, dflt: Option<U>, timeout: int, settings: Settings)
    : (a: StrictReturn<Option<U>>)
    requires Settles(obs, DefaultCheck(dflt), timeout)
    ensures StrictResult(obs, DefaultCheck(dflt), timeout, a.result)
    ensures RunTrace(obs, DefaultCheck(dflt), timeout, settings.interval, a.trace)
  {
    PollCheckTimeoutInterval(obs, DefaultCheck(dflt), timeout, settings.interval)
  }

  /** `Poll(toPoll, timeout, interval)`: the default check. */
  function PollTimeoutInterval<U(==,!new)>(obs: seq<Observation<Option<U>>>, dflt: Option<U>, timeout: int, interval: int)
    : (a: StrictReturn<Option<U>>)
    requires Settles(obs, DefaultCheck(dflt), timeout)
    ensures StrictResult(obs, DefaultCheck(dflt), timeout, a.result)
    ensures RunTrace(obs, DefaultCheck(dflt), timeout, interval, a.trace)
  {
    PollCheckTimeoutInterval(obs, DefaultCheck(dflt), timeout, interval)
  }

  /** `Poll(toPoll, toCheck)`: the current timeout and interval. */
  function PollCheck<T>(obs: seq<Observation<T>>, check: T -> bool, settings: Settings): (a: StrictReturn<T>)
    requires Settles(obs, check, settings.timeout)
    ensures StrictResult(obs, check, settings.timeout, a.result)
    ensures RunTrace(obs, check, settings.timeout, settings.interval, a.trace)
  {
    PollCheckTimeoutInterval(obs, check, settings.timeout, settings.interval)
  }

  /** `Poll(toPoll, toCheck, timeout)`: runs the loop with the current interval. */
  function PollCheckTimeout<T>(obs: seq<Observation<T>>, check: T -> bool, timeout: int, settings: Settings)
    : (a: StrictReturn<T>)
    requires Settles(obs, check, timeout)
    ensures StrictResult(obs, check, timeout, a.result)
    ensures RunTrace(obs, check, timeout, settings.interval, a.trace)
  {
    StrictAnswer(PollRun(obs, check, timeout, settings.interval))
  }

  /** `Poll(toPoll, toCheck, timeout, interval)`: runs the loop and throws if it timed out. */
  function PollCheckTimeoutInterval<T>(obs: seq<Observation<T>>, check: T -> bool, timeout: int, interval: int)
    : (a: StrictReturn<T>)
    requires Settles(obs, check, timeout)
    ensures StrictResult(obs, check, timeout, a.result)
    ensures RunTrace(obs, check, timeout, interval, a.trace)
  {
    StrictAnswer(PollRun(obs, check, timeout, interval))
  }

  /** Before any setter runs, `Poll(toPoll)` polls with a 10000 ms timeout,
      sleeps 50 ms between attempts and uses the default check. */
  lemma PollDefaultAtStartup<U(!new)>(obs: seq<Observation<Option<U>>>, dflt: Option<U>)
    requires Settles(obs, DefaultCheck(dflt), 10000)
    ensures StrictResult(obs, DefaultCheck(dflt), 10000, PollDefault(obs, dflt, Initial).result)
    ensures RunTrace(obs, DefaultCheck(dflt), 10000, 50, PollDefault(obs, dflt, Initial).trace)
  {
  }

  /** A producer that only ever returns null makes `Poll(toPoll, 500)` throw,
      as soon as a reading exceeds 500 ms. */
  lemma AlwaysNullTimesOut<U(!new)>(obs: seq<Observation<Option<U>>>, settings: Settings)
    requires forall k :: 0 <= k < |obs| ==> obs[k].answer == None
    requires Settles(obs, DefaultCheck(None), 500)
    ensures PollTimeout(obs, None, 500, settings).result == Failure(PollingTimeout)
  {
  }

  /** Accepts values of at least 5. */
  predicate AtLeastFive(x: int) {
    x >= 5
  }

  /** A producer returning 0, 1, 2, ... checked for "at least 5" returns 5,
      provided the first five rejections all come within the timeout. */
  lemma CountingProducerReturnsFive(obs: seq<Observation<int>>, timeout: int, interval: int)
    requires |obs| > 5
    requires forall k :: 0 <= k < |obs| ==> obs[k].answer == k
    requires forall k :: 0 <= k < 5 ==> obs[k].elapsed <= timeout
    ensures Settles(obs, AtLeastFive, timeout)
    ensures PollCheckTimeoutInterval(obs, AtLeastFive, timeout, interval).result == Success(5)
  {
    assert Stops(obs[5], AtLeastFive, timeout);
    assert IsFirstStop(obs, AtLeastFive, timeout, 5);
  }
}
