/** `unwrapOrElse`: a nullable value, or a computed default for `null` /
    `undefined`. */
module NullableUnwrapOrElse {
  import opened OptionResult
  import opened Nullable
  import opened NullableToOption

  function UnwrapOrElse<T>(value: Nullable<T>, getDefaultValue: () -> T): T {
    if value.IsAbsent() then getDefaultValue() else value.value
  }

  /** How many times `getDefaultValue` is called: once for an absence
      marker, never for a present value. */
  function SupplierCalls<T>(value: Nullable<T>): nat {
    if value.IsAbsent() then 1 else 0
  }

  /** An absence marker yields the supplier's value; a present value is kept. */
  lemma UnwrapOrElseMeaning<T>(x: Nullable<T>, s: () -> T)
    ensures x.IsAbsent() ==> UnwrapOrElse(x, s) == s()
    ensures x.Present? ==> UnwrapOrElse(x, s) == x.value
  {
  }

  /** The supplier matters only when it is called. */
  lemma SupplierSeenOnlyWhenCalled<T>(x: Nullable<T>, s1: () -> T, s2: () -> T)
    requires SupplierCalls(x) == 0 || s1() == s2()
    ensures UnwrapOrElse(x, s1) == UnwrapOrElse(x, s2)
  {
  }

  /** The adapter is `toOption` followed by `Option.unwrapOrElse`, and calls
      its supplier exactly when `Option.unwrapOrElse` would. */
  lemma UnwrapOrElseIsToOptionUnwrapOrElse<T>(x: Nullable<T>, s: () -> T)
    ensures UnwrapOrElse(x, s) == ToOption(x).UnwrapOrElse(s)
    ensures SupplierCalls(x) == (if ToOption(x).IsNone() then 1 else 0)
  {
  }

  /** Falsy host values are kept, and the supplier is not consulted: an
      instance of `UnwrapOrElseMeaning` for a present value. */
  lemma FalsyValuesAreKept(v: HostValue, s: () -> HostValue)
    requires Falsy(v)
    ensures UnwrapOrElse(Present(v), s) == v
    ensures SupplierCalls(Present(v)) == 0
  {
  }
}
