/**
 The six `PollSafe` overloads of Library/PollSafe.cs. The three that take a
 check return the last produced value whether or not it was accepted. The
 three that use `DefaultCheck<T>()` delegate to the strict `Poll`, so, unlike
 their documentation says, they throw PollingTimeoutException on a timeout.
 */
module SafePoll {
  import opened Wrappers
  import opened PollLoop
  import opened PollDefaults
  import StrictPoll

  /** `PollSafe(toPoll)`: the current settings, through the (toPoll, timeout, interval) overload; strict. */
  function PollSafeDefault<U(==,!new)>(obs: seq<Observation<Option<U>>>, dflt: Option<U>, settings: Settings)
    : (a: StrictReturn<Option<U>>)
    requires Settles(obs, DefaultCheck(dflt), settings.timeout)
    ensures StrictResult(obs, DefaultCheck(dflt), settings.timeout, a.result)
    ensures RunTrace(obs, DefaultCheck(dflt), settings.timeout, settings.interval, a.trace)
  {
    PollSafeTimeoutInterval(obs, dflt, settings.timeout, settings.interval)
  }

  /** `PollSafe(toPoll, timeout)`: the strict `Poll` with the default check and the current interval. */
  function PollSafeTimeout<U(==,!new)>(obs: seq<Observation<Option<U>>>, dflt: Option<U>, timeout: int, settings: Settings)
    : (a: StrictReturn<Option<U>>)
    requires Settles(obs, DefaultCheck(dflt), timeout)
    ensures StrictResult(obs, DefaultCheck(dflt), timeout, a.result)
    ensures RunTrace(obs, DefaultCheck(dflt), timeout, settings.interval, a.trace)
  {
    StrictPoll.PollCheckTimeoutInterval(obs, DefaultCheck(dflt), timeout, settings.interval)
  }

  /** `PollSafe(toPoll, timeout, interval)`: the strict `Poll` with the default check. */
  function PollSafeTimeoutInterval<U(==,!new)>(obs: seq<Observation<Option<U>>>, dflt: Option<U>, timeout: int, interval: int)
    : (a: StrictReturn<Option<U>>)
    requires Settles(obs, DefaultCheck(dflt), timeout)
    ensures StrictResult(obs, DefaultCheck(dflt), timeout, a.result)
    ensures RunTrace(obs, DefaultCheck(dflt), timeout, interval, a.trace)
  {
    StrictPoll.PollCheckTimeoutInterval(obs, DefaultCheck(dflt), timeout, interval)
  }

  /** `PollSafe(toPoll, toCheck)`: the current timeout and interval. */
  function PollSafeCheck<T>(obs: seq<Observation<T>>, check: T -> bool, settings: Settings): (a: SafeReturn<T>)
    requires Settles(obs, check, settings.timeout)
    ensures SafeResult(obs, check, settings.timeout, a.result)
    ensures RunTrace(obs, check, settings.timeout, settings.interval, a.trace)
  {
    PollSafeCheckTimeoutInterval(obs, check, settings.timeout, settings.interval)
  }

  /** `PollSafe(toPoll, toCheck, timeout)`: runs the loop with the current interval. */
  function PollSafeCheckTimeout<T>(obs: seq<Observation<T>>, check: T -> bool, timeout: int, settings: Settings)
    : (a: SafeReturn<T>)
    requires Settles(obs, check, timeout)
    ensures SafeResult(obs, check, timeout, a.result)
    ensures RunTrace(obs, check, timeout, settings.interval, a.trace)
  {
    SafeAnswer(PollRun(obs, check, timeout, settings.interval))
  }

  /** `PollSafe(toPoll, toCheck, timeout, interval)`: runs the loop and returns its last value. */
  function PollSafeCheckTimeoutInterval<T>(obs: seq<Observation<T>>, check: T -> bool, timeout: int, interval: int)
    : (a: SafeReturn<T>)
    requires Settles(obs, check, timeout)
    ensures SafeResult(obs, check, timeout, a.result)
    ensures RunTrace(obs, check, timeout, interval, a.trace)
  {
    SafeAnswer(PollRun(obs, check, timeout, interval))
  }

  /** The default-check `PollSafe(toPoll, timeout, interval)` is the strict
      `Poll(toPoll, timeout, interval)` under another name. */
  lemma SafeDefaultOverloadsAreStrict<U(!new)>(obs: seq<Observation<Option<U>>>, dflt: Option<U>, timeout: int, interval: int)
    requires Settles(obs, DefaultCheck(dflt), timeout)
    ensures PollSafeTimeoutInterval(obs, dflt, timeout, interval) == StrictPoll.PollTimeoutInterval(obs, dflt, timeout, interval)
  {
  }

  /** On a poll that succeeds, the strict and the safe entry points return the
      same value after the same calls and sleeps. */
  lemma StrictAndSafeAgreeOnSuccess<T>(obs: seq<Observation<T>>, check: T -> bool, timeout: int, interval: int)
    requires Settles(obs, check, timeout)
    requires StrictPoll.PollCheckTimeoutInterval(obs, check, timeout, interval).result.Success?
    ensures PollSafeCheckTimeoutInterval(obs, check, timeout, interval).result
            == StrictPoll.PollCheckTimeoutInterval(obs, check, timeout, interval).result.value
    ensures PollSafeCheckTimeoutInterval(obs, check, timeout, interval).trace
            == StrictPoll.PollCheckTimeoutInterval(obs, check, timeout, interval).trace
  {
  }

  /** On a poll that times out, the strict entry point throws while the safe
      one returns the last value, which the check rejected. */
  lemma StrictAndSafeDivergeOnTimeout<T>(obs: seq<Observation<T>>, check: T -> bool, timeout: int, interval: int)
    requires Settles(obs, check, timeout)
    requires StrictPoll.PollCheckTimeoutInterval(obs, check, timeout, interval).result.Failure?
    ensures !check(PollSafeCheckTimeoutInterval(obs, check, timeout, interval).result)
    ensures obs[FirstStop(obs, check, timeout)].elapsed > timeout
  {
  }

  /** The documented behaviour of `PollSafe(toPoll, timeout, interval)`: the
      last value, which after a timeout is `default(T)`; it never throws. */
  function PollSafeTimeoutIntervalIntended<U(==,!new)>(
    obs: seq<Observation<Option<U>>>, dflt: Option<U>, timeout: int, interval: int): (a: SafeReturn<Option<U>>)
    requires Settles(obs, DefaultCheck(dflt), timeout)
    ensures SafeResult(obs, DefaultCheck(dflt), timeout, a.result)
    ensures RunTrace(obs, DefaultCheck(dflt), timeout, interval, a.trace)
    ensures StrictPoll.PollTimeoutInterval(obs, dflt, timeout, interval).result.Failure? ==> a.result == dflt
    ensures StrictPoll.PollTimeoutInterval(obs, dflt, timeout, interval).result.Success? ==>
              a.result == StrictPoll.PollTimeoutInterval(obs, dflt, timeout, interval).result.value
  {
    PollSafeCheckTimeoutInterval(obs, DefaultCheck(dflt), timeout, interval)
  }

  /** A single null answer read after 60 ms, with a 10 ms timeout: the
      default-check `PollSafe` throws, where the documented one returns null. */
  lemma SafeDefaultOverloadThrows()
    ensures Settles([Observation(None, 60)], DefaultCheck<int>(None), 10)
    ensures PollSafeTimeoutInterval<int>([Observation(None, 60)], None, 10, 50).result == Failure(PollingTimeout)
    ensures PollSafeTimeoutIntervalIntended<int>([Observation(None, 60)], None, 10, 50).result == None
  {
    assert Stops([Observation(None, 60)][0], DefaultCheck<int>(None), 10);
  }
}
