/**
 The single-class version in Library/Polling.cs: two strict `Poll` and two
 `PollSafe` entry points whose timeout and interval are optional parameters
 defaulting to the constants `_timeout` and `_interval`. It shares the loop and
 the default check with the partial-class version.
 */
module SingleClass {
  import opened Wrappers
  import opened PollLoop
  import opened PollDefaults
  import StrictPoll

  /** `_timeout`, in milliseconds. */
  const Timeout: int := 10000

  /** `_interval`, in milliseconds. */
  const Interval: int := 50

  /** `Poll(toPoll, timeout = _timeout, interval = _interval)`: strict, with the default check. */
  function Poll<U(==,!new)>(obs: seq<Observation<Option<U>>>, dflt: Option<U>, timeout: int := Timeout, interval: int := Interval)
    : (a: StrictReturn<Option<U>>)
    requires Settles(obs, DefaultCheck(dflt), timeout)
    ensures StrictResult(obs, DefaultCheck(dflt), timeout, a.result)
    ensures RunTrace(obs, DefaultCheck(dflt), timeout, interval, a.trace)
  {
    PollCheck(obs, DefaultCheck(dflt), timeout, interval)
  }

  /** `PollSafe(toPoll, timeout = _timeout, interval = _interval)`: passes the
      constants instead of its arguments to the strict `Poll`, so it polls for
      10000 ms and sleeps 50 ms whatever it is given, and throws on a timeout. */
  function PollSafe<U(==,!new)>(obs: seq<Observation<Option<U>>>, dflt: Option<U>, timeout: int := Timeout, interval: int := Interval)
    : (a: StrictReturn<Option<U>>)
    requires Settles(obs, DefaultCheck(dflt), Timeout)
    ensures StrictResult(obs, DefaultCheck(dflt), Timeout, a.result)
    ensures RunTrace(obs, DefaultCheck(dflt), Timeout, Interval, a.trace)
  {
    PollCheck(obs, DefaultCheck(dflt), Timeout, Interval)
  }

  /** `Poll(toPoll, toCheck, timeout = _timeout, interval = _interval)`: runs the loop and throws if it timed out. */
  function PollCheck<T>(obs: seq<Observation<T>>, check: T -> bool, timeout: int := Timeout, interval: int := Interval)
    : (a: StrictReturn<T>)
    requires Settles(obs, check, timeout)
    ensures StrictResult(obs, check, timeout, a.result)
    ensures RunTrace(obs, check, timeout, interval, a.trace)
  {
    StrictAnswer(PollRun(obs, check, timeout, interval))
  }

  /** `PollSafe(toPoll, toCheck, timeout = _timeout, interval = _interval)`: runs the loop and returns its last value. */
  function PollSafeCheck<T>(obs: seq<Observation<T>>, check: T -> bool, timeout: int := Timeout, interval: int := Interval)
    : (a: SafeReturn<T>)
    requires Settles(obs, check, timeout)
    ensures SafeResult(obs, check, timeout, a.result)
    ensures RunTrace(obs, check, timeout, interval, a.trace)
  {
    SafeAnswer(PollRun(obs, check, timeout, interval))
  }

  /** The documented behaviour of `PollSafe(toPoll, timeout, interval)`: poll
      with the given timeout and interval and return the last value, which
      after a timeout is `default(T)`; it never throws. */
  function PollSafeIntended<U(==,!new)>(obs: seq<Observation<Option<U>>>, dflt: Option<U>, timeout: int := Timeout, interval: int := Interval)
    : (a: SafeReturn<Option<U>>)
    requires Settles(obs, DefaultCheck(dflt), timeout)
    ensures SafeResult(obs, DefaultCheck(dflt), timeout, a.result)
    ensures RunTrace(obs, DefaultCheck(dflt), timeout, interval, a.trace)
    ensures Poll(obs, dflt, timeout, interval).result.Failure? ==> a.result == dflt
    ensures Poll(obs, dflt, timeout, interval).result.Success? ==> a.result == Poll(obs, dflt, timeout, interval).result.value
  {
    PollSafeCheck(obs, DefaultCheck(dflt), timeout, interval)
  }

  /** Asked for a 0 ms timeout, `PollSafe` keeps polling past a null answer
      read at 5 ms and returns the value of the second attempt; honouring the
      timeout it would have stopped at the first attempt with null. */
  lemma PollSafeIgnoresTimeout()
    ensures Settles([Observation(None, 5), Observation(Some(7), 6)], DefaultCheck<int>(None), Timeout)
    ensures Settles([Observation(None, 5), Observation(Some(7), 6)], DefaultCheck<int>(None), 0)
    ensures PollSafe<int>([Observation(None, 5), Observation(Some(7), 6)], None, 0, 0).result == Success(Some(7))
    ensures PollSafeIntended<int>([Observation(None, 5), Observation(Some(7), 6)], None, 0, 0).result == None
  {
    var obs: seq<Observation<Option<int>>> := [Observation(None, 5), Observation(Some(7), 6)];
    assert Stops(obs[0], DefaultCheck<int>(None), 0);
    assert !Stops(obs[0], DefaultCheck<int>(None), Timeout);
    assert Stops(obs[1], DefaultCheck<int>(None), Timeout);
  }

  /** Asked for a 0 ms interval, `PollSafe` still sleeps 50 ms between a
      rejected null answer and an accepted one; honouring the interval it
      would have slept 0 ms. */
  lemma PollSafeIgnoresInterval()
    ensures Settles([Observation(None, 5), Observation(Some(7), 6)], DefaultCheck<int>(None), Timeout)
    ensures PollSafe<int>([Observation(None, 5), Observation(Some(7), 6)], None, Timeout, 0).trace
            == [Call(None), Sleep(50), Call(Some(7))]
    ensures PollSafeIntended<int>([Observation(None, 5), Observation(Some(7), 6)], None, Timeout, 0).trace
            == [Call(None), Sleep(0), Call(Some(7))]
  {
    var obs: seq<Observation<Option<int>>> := [Observation(None, 5), Observation(Some(7), 6)];
    assert !Stops(obs[0], DefaultCheck<int>(None), Timeout);
    assert Stops(obs[1], DefaultCheck<int>(None), Timeout);
    assert IsFirstStop(obs, DefaultCheck<int>(None), Timeout, 1);
    var t := PollSafe<int>(obs, None, Timeout, 0).trace;
    assert |t| == 3 && t[0] == Call(None) && t[1] == Sleep(50) && t[2] == Call(Some(7));
    var u := PollSafeIntended<int>(obs, None, Timeout, 0).trace;
    assert |u| == 3 && u[0] == Call(None) && u[1] == Sleep(0) && u[2] == Call(Some(7));
  }

  /** With the arguments left out and the process-wide settings still at
      their initial values, the two versions of the class agree. */
  lemma AgreesWithPartialClassAtStartup<U(!new)>(obs: seq<Observation<Option<U>>>, dflt: Option<U>, check: Option<U> -> bool)
    requires Settles(obs, DefaultCheck(dflt), Initial.timeout)
    requires Settles(obs, check, Initial.timeout)
    ensures Poll(obs, dflt) == StrictPoll.PollDefault(obs, dflt, Initial)
    ensures PollCheck(obs, check) == StrictPoll.PollCheck(obs, check, Initial)
  {
  }
}
