/**
 The polling loop `_Poll` (Library/_Poll.cs, duplicated in Library/Polling.cs).

 The producer and the stopwatch are inputs: attempt `k` of the loop sees
 `obs[k].answer` from the producer and, if the check rejects it, the stopwatch
 reading `obs[k].elapsed` (whole milliseconds since the loop started). The loop
 itself is then a pure function of these observations, the check, the timeout
 and the interval; its sleeps are recorded as events of a trace.
 */
module PollLoop {
  import opened Wrappers

  /** What one attempt sees: the producer's answer and the stopwatch reading. */
  datatype Observation<T> = Observation(answer: T, elapsed: nat)

  /** The pair `_Poll` returns: the last produced value and whether it was accepted. */
  datatype Outcome<T> = Outcome(value: T, accepted: bool)

  /** The loop's visible effects: a producer call with its answer, or a sleep of `ms`. */
  datatype Event<T> = Call(answer: T) | Sleep(ms: int)

  /** A whole execution of the loop: its outcome, how many times the producer
      was called, and the calls and sleeps in the order they happened. */
  datatype Run<T> = Run(outcome: Outcome<T>, attempts: nat, trace: seq<Event<T>>)

  /** The exception strict entry points throw (PollingTimeoutException). */
  datatype PollingTimeout = PollingTimeout

  /** An attempt ends the loop: its answer is accepted, or it is rejected after
      more than `timeout` milliseconds have elapsed. */
  predicate Stops<T>(o: Observation<T>, check: T -> bool, timeout: int) {
    check(o.answer) || o.elapsed > timeout
  }

  /** Some attempt at index `i` or later ends the loop. */
  predicate SettlesFrom<T>(obs: seq<Observation<T>>, check: T -> bool, timeout: int, i: nat) {
    exists k :: i <= k < |obs| && Stops(obs[k], check, timeout)
  }

  /** The observations reach far enough for the loop to end. A real stopwatch
      eventually exceeds any timeout, so every actual run is of this kind. */
  predicate Settles<T>(obs: seq<Observation<T>>, check: T -> bool, timeout: int) {
    SettlesFrom(obs, check, timeout, 0)
  }

  /** Attempt `n` is the first one that ends the loop. */
  ghost predicate IsFirstStop<T>(obs: seq<Observation<T>>, check: T -> bool, timeout: int, n: nat) {
    && n < |obs|
    && Stops(obs[n], check, timeout)
    && forall j :: 0 <= j < n ==> !Stops(obs[j], check, timeout)
  }

  /** If some attempt ends the loop, a first such attempt exists. */
  lemma {:induction false} FirstStopExists<T>(obs: seq<Observation<T>>, check: T -> bool, timeout: int, k: nat)
    requires k < |obs| && Stops(obs[k], check, timeout)
    ensures exists n :: IsFirstStop(obs, check, timeout, n)
    decreases k
  {
    if j :| 0 <= j < k && Stops(obs[j], check, timeout) {
      FirstStopExists(obs, check, timeout, j);
    } else {
      assert IsFirstStop(obs, check, timeout, k);
    }
  }

  /** The index of the first attempt that ends the loop, defined without reference to the loop. */
  ghost function FirstStop<T>(obs: seq<Observation<T>>, check: T -> bool, timeout: int): (n: nat)
    requires Settles(obs, check, timeout)
    ensures IsFirstStop(obs, check, timeout, n)
  {
    var k :| 0 <= k < |obs| && Stops(obs[k], check, timeout);
    FirstStopExists(obs, check, timeout, k);
    var n :| IsFirstStop(obs, check, timeout, n);
    n
  }

  /** Number of sleeps in a trace. */
  function Sleeps<T>(trace: seq<Event<T>>): nat {
    if |trace| == 0 then 0
    else (if trace[0].Sleep? then 1 else 0) + Sleeps(trace[1..])
  }

  /** `trace` is the record of `n` attempts starting at attempt `i`: calls
      returning the observed answers, separated by sleeps of `interval`. */
  ghost predicate IsTrace<T>(obs: seq<Observation<T>>, interval: int, i: nat, n: nat, trace: seq<Event<T>>) {
    && 1 <= n && i + n <= |obs|
    && |trace| == 2 * n - 1
    && forall k :: 0 <= k < |trace| ==>
         trace[k] == if k % 2 == 0 then Call(obs[i + k / 2].answer) else Sleep(interval)
  }

  /** Prefixing a call and a sleep to the record of the attempts from `i + 1`
      gives the record of the attempts from `i`. */
  lemma ExtendTrace<T>(obs: seq<Observation<T>>, interval: int, i: nat, n: nat, trace: seq<Event<T>>)
    requires i < |obs| && IsTrace(obs, interval, i + 1, n, trace)
    ensures IsTrace(obs, interval, i, n + 1, [Call(obs[i].answer), Sleep(interval)] + trace)
    ensures Sleeps([Call(obs[i].answer), Sleep(interval)] + trace) == Sleeps(trace) + 1
  {
  }

  /**
   The loop from attempt `i` on: call the producer, return at once if the
   check accepts, return the rejected value if more than `timeout` ms have
   elapsed, and otherwise sleep `interval` ms and try again. `attempts` and
   `trace` count the attempts from `i` on.
   */
  function PollFrom<T>(obs: seq<Observation<T>>, check: T -> bool, timeout: int, interval: int, i: nat): (r: Run<T>)
    requires SettlesFrom(obs, check, timeout, i)
    decreases |obs| - i
    ensures 1 <= r.attempts && i + r.attempts <= |obs|
    ensures Stops(obs[i + r.attempts - 1], check, timeout)
    ensures forall j :: i <= j < i + r.attempts - 1 ==> !Stops(obs[j], check, timeout)
    ensures r.outcome.value == obs[i + r.attempts - 1].answer
    ensures r.outcome.accepted == check(r.outcome.value)
    ensures IsTrace(obs, interval, i, r.attempts, r.trace)
    ensures Sleeps(r.trace) == r.attempts - 1
  {
    var returned := obs[i].answer;
    if check(returned) then
      Run(Outcome(returned, true), 1, [Call(returned)])
    else if obs[i].elapsed > timeout then
      Run(Outcome(returned, false), 1, [Call(returned)])
    else
      var rest := PollFrom(obs, check, timeout, interval, i + 1);
      ExtendTrace(obs, interval, i, rest.attempts, rest.trace);
      Run(rest.outcome, rest.attempts + 1, [Call(returned), Sleep(interval)] + rest.trace)
  }

  /**
   `_Poll(toPoll, toCheck, timeout, interval)`: the whole loop. The attempt it
   ends on is the first one that is accepted or rejected late; every earlier
   attempt was rejected within the timeout and followed by a sleep, and no
   sleep follows the last one.
   */
  function PollRun<T>(obs: seq<Observation<T>>, check: T -> bool, timeout: int, interval: int): (r: Run<T>)
    requires Settles(obs, check, timeout)
    ensures r.attempts == FirstStop(obs, check, timeout) + 1
    ensures r.outcome.value == obs[r.attempts - 1].answer
    ensures r.outcome.accepted == check(r.outcome.value)
    ensures !r.outcome.accepted ==> obs[r.attempts - 1].elapsed > timeout
    ensures forall j :: 0 <= j < r.attempts - 1 ==> !check(obs[j].answer) && obs[j].elapsed <= timeout
    ensures IsTrace(obs, interval, 0, r.attempts, r.trace)
    ensures r.trace[|r.trace| - 1] == Call(r.outcome.value)
    ensures Sleeps(r.trace) == r.attempts - 1
  {
    var r := PollFrom(obs, check, timeout, interval, 0);
    assert IsFirstStop(obs, check, timeout, r.attempts - 1);
    r
  }

  /** Strict completion: the value if it was accepted, PollingTimeoutException otherwise. */
  function Strict<T>(o: Outcome<T>): (r: Result<T, PollingTimeout>)
    ensures r.Success? <==> o.accepted
    ensures r.Success? ==> r.value == o.value
  {
    if o.accepted then Success(o.value) else Failure(PollingTimeout)
  }

  /** What a strict entry point promises: the value of the attempt that ends
      the loop if the check accepted it, the timeout exception otherwise. */
  ghost predicate StrictResult<T>(obs: seq<Observation<T>>, check: T -> bool, timeout: int, r: Result<T, PollingTimeout>)
    requires Settles(obs, check, timeout)
  {
    var last := obs[FirstStop(obs, check, timeout)].answer;
    r == if check(last) then Success(last) else Failure(PollingTimeout)
  }

  /** What a safe entry point promises: the value of the attempt that ends the
      loop, accepted or not. */
  ghost predicate SafeResult<T>(obs: seq<Observation<T>>, check: T -> bool, timeout: int, v: T)
    requires Settles(obs, check, timeout)
  {
    v == obs[FirstStop(obs, check, timeout)].answer
  }

  /** What an entry point hands back: its return value, together with the
      producer calls and sleeps it made on the way. */
  datatype Answer<R, T> = Answer(result: R, trace: seq<Event<T>>)

  /** `trace` is exactly the calls and sleeps of a loop run with `interval`:
      one call per attempt up to the one that ends the loop, each but the last
      followed by a sleep of `interval`. */
  ghost predicate RunTrace<T>(obs: seq<Observation<T>>, check: T -> bool, timeout: int, interval: int, trace: seq<Event<T>>)
    requires Settles(obs, check, timeout)
  {
    IsTrace(obs, interval, 0, FirstStop(obs, check, timeout) + 1, trace)
  }

  /** What a strict entry point hands back. */
  type StrictReturn<T> = Answer<Result<T, PollingTimeout>, T>

  /** What a safe entry point hands back. */
  type SafeReturn<T> = Answer<T, T>

  /** A strict entry point's answer for a finished run. */
  function StrictAnswer<T>(run: Run<T>): StrictReturn<T> {
    Answer(Strict(run.outcome), run.trace)
  }

  /** A safe entry point's answer for a finished run: `Item1`. */
  function SafeAnswer<T>(run: Run<T>): SafeReturn<T> {
    Answer(run.outcome.value, run.trace)
  }

  /** A first answer the check accepts is returned after one call and no
      sleep, whatever the timeout (even zero or negative) and the readings. */
  lemma ImmediateSuccess<T>(obs: seq<Observation<T>>, check: T -> bool, timeout: int, interval: int)
    requires |obs| > 0 && check(obs[0].answer)
    ensures Settles(obs, check, timeout)
    ensures PollRun(obs, check, timeout, interval) == Run(Outcome(obs[0].answer, true), 1, [Call(obs[0].answer)])
  {
  }

  /** With a negative timeout the first reading (never negative) already
      exceeds it, so the producer is called exactly once and nothing sleeps. */
  lemma NegativeTimeoutSingleAttempt<T>(obs: seq<Observation<T>>, check: T -> bool, timeout: int, interval: int)
    requires |obs| > 0 && timeout < 0
    ensures Settles(obs, check, timeout)
    ensures PollRun(obs, check, timeout, interval).attempts == 1
    ensures PollRun(obs, check, timeout, interval).trace == [Call(obs[0].answer)]
  {
  }

  /** A rejected attempt whose reading equals the timeout does not end the
      loop: the comparison is strictly greater-than. */
  lemma ReadingEqualToTimeoutRetries<T>(obs: seq<Observation<T>>, check: T -> bool, timeout: int, interval: int, k: nat)
    requires Settles(obs, check, timeout)
    requires k < |obs| && !check(obs[k].answer) && obs[k].elapsed == timeout
    ensures PollRun(obs, check, timeout, interval).attempts != k + 1
  {
  }

  /** The loop never looks past the attempt that ends it: observations added
      after the end change nothing. */
  lemma {:induction false} PollFromIgnoresLaterObservations<T>(
    obs: seq<Observation<T>>, more: seq<Observation<T>>, check: T -> bool, timeout: int, interval: int, i: nat)
    requires SettlesFrom(obs, check, timeout, i)
    ensures SettlesFrom(obs + more, check, timeout, i)
    ensures PollFrom(obs + more, check, timeout, interval, i) == PollFrom(obs, check, timeout, interval, i)
    decreases |obs| - i
  {
    var k :| i <= k < |obs| && Stops(obs[k], check, timeout);
    assert (obs + more)[k] == obs[k];
    assert (obs + more)[i] == obs[i];
    if !Stops(obs[i], check, timeout) {
      PollFromIgnoresLaterObservations(obs, more, check, timeout, interval, i + 1);
    }
  }

  /** `PollRun` depends only on the observations up to the attempt that ends it. */
  lemma PollRunIgnoresLaterObservations<T>(
    obs: seq<Observation<T>>, more: seq<Observation<T>>, check: T -> bool, timeout: int, interval: int)
    requires Settles(obs, check, timeout)
    ensures Settles(obs + more, check, timeout)
    ensures PollRun(obs + more, check, timeout, interval) == PollRun(obs, check, timeout, interval)
  {
    PollFromIgnoresLaterObservations(obs, more, check, timeout, interval, 0);
  }
}
