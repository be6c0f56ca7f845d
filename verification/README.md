# Polling: a verified model of a polling/retry loop

This project models the C# library `PollingLibrary.Polling`. The library calls
a producer `toPoll` over and over until a check `toCheck` accepts its answer or
a timeout expires. Its parts are:

- the loop `_Poll`, which returns the last answer and whether it was accepted;
- `DefaultCheck<T>()`, which accepts any value other than `default(T)`;
- the strict `Poll` overloads, which throw `PollingTimeoutException` on a timeout;
- the `PollSafe` overloads, which are documented to return the last value instead;
- the process-wide `DefaultPollingTimeout` and `DefaultPollingInterval`
  (10000 ms and 50 ms at start-up).

The library exists in two overlapping versions. One is the partial class in
`_Poll.cs`, `Poll.cs` and `PollSafe.cs`, with settable defaults. The other is
the single class in `Polling.cs`, with optional parameters. Both share the
same loop and default check, which are modelled once.

Modelling choices:

- **Time and the producer are inputs.** Attempt `k` of the loop sees
  `obs[k].answer` from the producer. If the check rejects it, the loop reads
  the stopwatch, `obs[k].elapsed` (milliseconds, never negative). The loop is
  then a pure function (`PollLoop.PollRun`). Its sleeps appear as `Sleep`
  events in the trace it returns.
- **Termination.** Each entry point requires `Settles`: some observation ends
  the loop. A real stopwatch eventually passes any timeout, so every real run
  meets this. `PollRunIgnoresLaterObservations` shows that observations after
  the final attempt are never read.
- **Null and `default(T)`.** With the default check, a C# value of type `T`
  is an `Option<U>`, and `None` is null. The caller passes `default(T)` as
  `dflt`. It is `None` for reference and nullable types and `Some(zero)` for
  value types.
- **Exceptions and defaults.** `PollingTimeoutException` is
  `Failure(PollingTimeout)`. The settable defaults are a `Settings` value
  passed to the overloads that read them. `PollDefaults.Initial` holds the
  static constructor's values.
- **The interval.** The stopwatch readings are inputs, so the interval
  cannot change the value an entry point returns. Each entry point therefore
  returns an `Answer`: its C# return value (or exception) plus the trace of
  producer calls and sleeps it made. `RunTrace` says that trace sleeps the
  interval the code passes to the loop, between consecutive attempts.
- **The `Polling.cs` copies.** `DefaultCheck` (Library/Polling.cs:82-90) and
  `_Poll` (Library/Polling.cs:92-109) have the same text as in `_Poll.cs`.
  They are modelled by `PollDefaults.DefaultCheck` and `PollLoop.PollRun`.

Files: `wrappers.dfy` (Option, Result), `poll_loop.dfy` (the loop),
`poll_defaults.dfy` (settings and default check), `poll.dfy` (Poll.cs),
`poll_safe.dfy` (PollSafe.cs), `polling.dfy` (Polling.cs).

## Model

| member | source | states |
|---|---|---|
| PollLoop.PollFrom | Library/_Poll.cs:43-54 | From attempt `i` on, the loop ends at the first attempt whose answer is accepted or whose reading exceeds the timeout. It returns that attempt's answer, with a flag equal to the check applied to it. The trace alternates calls (with the observed answers) and sleeps of `interval`, with one sleep fewer than calls. |
| PollLoop.PollRun | Library/_Poll.cs:38-55 | `_Poll` calls the producer at least once. It ends at the first attempt that stops, found independently as `FirstStop`. It returns the latest answer, flagged with the check's verdict. A `false` flag implies a reading strictly above the timeout. Every earlier answer was rejected at a reading within the timeout. Sleeps = attempts - 1, and the trace ends with a call. |
| PollLoop.Strict | Library/Poll.cs:99-104 | A strict completion returns `Item1` exactly when `Item2` is true, and throws PollingTimeoutException otherwise. |
| PollLoop.ImmediateSuccess | Library/_Poll.cs:45-48 | If the first answer is accepted, it is returned as accepted after one call and no sleep, whatever the timeout (zero or negative included). |
| PollLoop.NegativeTimeoutSingleAttempt | Library/_Poll.cs:43-51 | A negative timeout still calls the producer once. It then stops after that one call with no sleep, because readings are never negative. |
| PollLoop.ReadingEqualToTimeoutRetries | Library/_Poll.cs:50-53 | A rejected attempt whose reading equals the timeout is not the last: the comparison is strictly greater-than. |
| PollLoop.PollFromIgnoresLaterObservations | Library/_Poll.cs:43-54 | Appending observations after the stopping attempt leaves the loop's run from any attempt unchanged. |
| PollLoop.PollRunIgnoresLaterObservations | Library/_Poll.cs:38-55 | The whole loop reads nothing past the attempt that ends it. |
| PollDefaults.DefaultCheck | Library/_Poll.cs:28-36 | The check from `DefaultCheck<T>()` rejects exactly `default(T)` and accepts every other value, in both its null and non-null branches. |
| PollDefaults.DefaultCheckForReferenceTypes | Library/_Poll.cs:32-33 | When `default(T)` is null, the check accepts exactly the non-null values. |
| PollDefaults.DefaultCheckForValueTypes | Library/_Poll.cs:34-35 | When `default(T)` is a non-null zero, the check accepts exactly the values not equal to it. |
| PollDefaults.DefaultCheckForInt | Library/_Poll.cs:30-35 | For `int`, the check rejects 0 and nothing else. |
| StrictPoll.PollDefault | Library/Poll.cs:18-21 | `Poll(toPoll)` uses the current default timeout and the default check, and sleeps the current default interval between attempts. It returns the accepted final answer, or throws if the final answer was rejected. |
| StrictPoll.PollTimeout | Library/Poll.cs:32-35 | `Poll(toPoll, timeout)` is strict, with the default check and the given timeout, and sleeps the current default interval. |
| StrictPoll.PollTimeoutInterval | Library/Poll.cs:47-50 | `Poll(toPoll, timeout, interval)` is strict, with the default check and the given timeout, and sleeps the given interval. |
| StrictPoll.PollCheck | Library/Poll.cs:61-64 | `Poll(toPoll, toCheck)` is strict, with the given check, the current default timeout and the current default interval. |
| StrictPoll.PollCheckTimeout | Library/Poll.cs:76-84 | `Poll(toPoll, toCheck, timeout)` returns the final answer if it was accepted and throws otherwise. Between attempts it sleeps the current default interval. |
| StrictPoll.PollCheckTimeoutInterval | Library/Poll.cs:97-105 | `Poll(toPoll, toCheck, timeout, interval)` returns the final answer if it was accepted and throws otherwise. Between attempts it sleeps the given interval. |
| StrictPoll.PollDefaultAtStartup | Library/_Poll.cs:12-16 | Before any setter runs, `Poll(toPoll)` polls with the static constructor's 10000 ms timeout, sleeps its 50 ms interval, and uses the default check. |
| StrictPoll.AlwaysNullTimesOut | Tests/Tests.cs:61-65 | With a producer that only returns null, `Poll(toPoll, 500)` throws PollingTimeoutException. |
| StrictPoll.CountingProducerReturnsFive | Library/Poll.cs:97-105 | A producer returning 0, 1, 2, ..., checked with "at least 5", makes `Poll` return 5 if the first five rejections come within the timeout. |
| SafePoll.PollSafeDefault | Library/PollSafe.cs:17-20 | `PollSafe(toPoll)` is strict, with the current default timeout, the current default interval and the default check: it throws on a timeout. |
| SafePoll.PollSafeTimeout | Library/PollSafe.cs:30-33 | `PollSafe(toPoll, timeout)` is strict, with the given timeout, the current default interval and the default check. |
| SafePoll.PollSafeTimeoutInterval | Library/PollSafe.cs:44-47 | `PollSafe(toPoll, timeout, interval)` is strict, with the given timeout, the given interval and the default check. |
| SafePoll.PollSafeCheck | Library/PollSafe.cs:57-60 | `PollSafe(toPoll, toCheck)` returns the final answer, accepted or not, using the current default timeout and sleeping the current default interval. |
| SafePoll.PollSafeCheckTimeout | Library/PollSafe.cs:71-74 | `PollSafe(toPoll, toCheck, timeout)` returns the final answer, accepted or not, and cannot throw a timeout. Between attempts it sleeps the current default interval. |
| SafePoll.PollSafeCheckTimeoutInterval | Library/PollSafe.cs:86-89 | `PollSafe(toPoll, toCheck, timeout, interval)` returns the final answer, accepted or not, and cannot throw a timeout. Between attempts it sleeps the given interval. |
| SafePoll.SafeDefaultOverloadsAreStrict | Library/PollSafe.cs:44-47 | The default-check `PollSafe(toPoll, timeout, interval)` always equals the strict `Poll(toPoll, timeout, interval)`. |
| SafePoll.StrictAndSafeAgreeOnSuccess | Library/PollSafe.cs:86-89 | When the strict `Poll` succeeds, `PollSafe` with the same arguments returns the same value after the same calls and sleeps. |
| SafePoll.StrictAndSafeDivergeOnTimeout | Library/Poll.cs:99-104 | When the strict `Poll` throws, `PollSafe` returns a value the check rejected. That value was read after the timeout had passed. |
| SafePoll.PollSafeTimeoutIntervalIntended | Library/PollSafe.cs:35-43 | The documented `PollSafe(toPoll, timeout, interval)` sleeps the given interval, returns the final answer and never throws. After a timeout that answer is `default(T)`; on success it equals the strict result. |
| SafePoll.SafeDefaultOverloadThrows | Library/PollSafe.cs:44-47 | For a single null answer read at 60 ms with a 10 ms timeout, the as-written overload throws and the documented one returns null. |
| SingleClass.Poll | Library/Polling.cs:26-29 | `Poll(toPoll, timeout = 10000, interval = 50)` is strict, with the default check and the given timeout, and sleeps the given interval. |
| SingleClass.PollSafe | Library/Polling.cs:40-43 | `PollSafe(toPoll, timeout, interval)` is strict. Whatever timeout and interval it is given, it always polls with a 10000 ms timeout and sleeps 50 ms. |
| SingleClass.PollCheck | Library/Polling.cs:56-64 | `Poll(toPoll, toCheck, timeout, interval)` returns the final answer if it was accepted and throws otherwise. Between attempts it sleeps the given interval. |
| SingleClass.PollSafeCheck | Library/Polling.cs:76-80 | `PollSafe(toPoll, toCheck, timeout, interval)` returns the final answer, accepted or not, and cannot throw a timeout. Between attempts it sleeps the given interval. |
| SingleClass.PollSafeIntended | Library/Polling.cs:31-39 | The documented `PollSafe(toPoll, timeout, interval)` honours the given timeout and interval and never throws. After a timeout it returns `default(T)`. |
| SingleClass.PollSafeIgnoresTimeout | Library/Polling.cs:40-43 | Given a 0 ms timeout, the as-written `PollSafe` polls past a null answer read at 5 ms and returns the second answer. The documented one returns null. |
| SingleClass.PollSafeIgnoresInterval | Library/Polling.cs:40-43 | Given a 0 ms interval, the as-written `PollSafe` still sleeps 50 ms between a rejected null answer and an accepted one. The documented one sleeps 0 ms. |
| SingleClass.AgreesWithPartialClassAtStartup | Library/Polling.cs:12-14 | With the optional arguments left out, the single class gives the same result as the partial class at its initial settings: 10000 ms timeout, 50 ms interval. |

## Left out

- Real time. The stopwatch and `Thread.Sleep` are not modelled. Readings are
  inputs and sleeps are trace events, so nothing is proved about wall-clock
  duration.
- `Thread.Sleep` with a negative interval. The code passes the interval to
  `Thread.Sleep` unchanged. The model records a `Sleep(interval)` event and
  then goes on polling, whatever the interval. For any interval of -1 or
  less, the model therefore differs from the program once an attempt is
  rejected within the timeout. With -1, the program blocks forever in
  `Thread.Sleep` and never returns, but the model makes the next attempt.
  Below -1, `Thread.Sleep` throws `ArgumentOutOfRangeException` out of the
  loop, but the model again makes the next attempt. Only the intervals 0 and
  up are modelled faithfully.
- Runs that never end. Every entry point requires `Settles`: some answer is
  accepted, or some reading passes the timeout. A clock that never passes the
  timeout, paired with a check that never accepts, would loop forever. The
  model does not represent that.
- Exceptions thrown by the producer or the check. They propagate uncaught, so
  the producer is a sequence of answers and the check is a total function.
- The message text of `PollingTimeoutException` (Library/PollingTimeoutException.cs:10).
- The setters of `DefaultPollingTimeout` and `DefaultPollingInterval`
  (Library/_Poll.cs:21-26). The current values are passed as a `Settings`
  argument instead of being mutable global state.
- .NET `Equals` overrides, boxing and `Nullable<T>` details. The value-type
  branch of `DefaultCheck` compares by structural equality.
- Integer width. `timeout` and `interval` are C# `int` and the reading is a
  `long`, but the code only compares and passes them on. It does no
  arithmetic, so unbounded integers behave the same.
- The test harness in Tests/Tests.cs, which uses files and timers. Its
  always-null scenario appears as `StrictPoll.AlwaysNullTimesOut`.

## Findings

| source | as written | input that shows it | evidently intended | confidence | as-written member | corrected member |
|---|---|---|---|---|---|---|
| Library/PollSafe.cs:30-47 | The default-check `PollSafe(toPoll, timeout[, interval])` and `PollSafe(toPoll)` call the strict `Poll`, so a timed-out poll throws PollingTimeoutException. | A producer that returns null once, read at 60 ms, with a 10 ms timeout. | Return the last value, `default(T)`, as the doc comments at lines 11-12, 23-24 and 36-37 say. | high; not executed | SafePoll.SafeDefaultOverloadThrows | SafePoll.PollSafeTimeoutIntervalIntended |
| Library/Polling.cs:40-43 | `PollSafe(toPoll, timeout, interval)` passes `_timeout` and `_interval` instead of its arguments, and calls the strict `Poll`. | Timeout 0, where the first answer is null (read at 5 ms) and the second is 7: it returns 7. Interval 0 with the same answers: it sleeps 50 ms. | Poll with the given timeout and interval, and return the last value without throwing. | high; not executed | SingleClass.PollSafeIgnoresTimeout | SingleClass.PollSafeIntended |
