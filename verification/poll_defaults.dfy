/**
 The defaults of Library/_Poll.cs: the process-wide timeout and interval the
 static constructor sets, and `DefaultCheck<T>()`.

 A C# value of the result type `T` is modelled as an `Option<U>`, `None` being
 the null reference. `default(T)` cannot be computed generically in Dafny, so
 the caller passes it as `dflt`: `None` for reference (and nullable) types,
 `Some(zero)` for value types, whose values are never null.
 */
module PollDefaults {
  import opened Wrappers

  /** DefaultPollingTimeout and DefaultPollingInterval, in milliseconds. */
  datatype Settings = Settings(timeout: int, interval: int)

  /** The values the static constructor assigns before any setter runs. */
  const Initial: Settings := Settings(10000, 50)

  /**
   `DefaultCheck<T>()`: inspects `default(T)` once; if it is null the check
   accepts the non-null values, otherwise it accepts the values not equal to
   `default(T)`. Either way it rejects exactly `default(T)`.
   */
  function DefaultCheck<U(==,!new)>(dflt: Option<U>): (check: Option<U> -> bool)
    ensures forall o :: check(o) <==> o != dflt
  {
    if dflt.None? then
      (o: Option<U>) => o.Some?
    else
      (o: Option<U>) => o != dflt
  }

  /** For a reference type (`default(T)` is null) the check accepts exactly the non-null values. */
  lemma DefaultCheckForReferenceTypes<U(!new)>(o: Option<U>)
    ensures DefaultCheck(None)(o) <==> o.Some?
  {
  }

  /** For a value type with zero value `zero`, the check accepts exactly the values other than `zero`. */
  lemma DefaultCheckForValueTypes<U(!new)>(zero: U, v: U)
    ensures DefaultCheck(Some(zero))(Some(v)) <==> v != zero
  {
  }

  /** For `int`, whose default is 0, the check rejects 0 and nothing else. */
  lemma DefaultCheckForInt(v: int)
    ensures DefaultCheck(Some(0))(Some(v)) <==> v != 0
  {
  }
}
