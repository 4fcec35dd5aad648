/** `unwrapOr`: a nullable value, or a default for `null` / `undefined`. */
module NullableUnwrapOr {
  import opened OptionResult
  import opened Nullable
  import opened NullableToOption

  function UnwrapOr<T>(value: Nullable<T>, defaultValue: T): T {
    if value.IsAbsent() then defaultValue else value.value
  }

  /** The default replaces exactly the absence markers; a present value is
      kept and the default ignored. */
  lemma UnwrapOrMeaning<T>(x: Nullable<T>, d: T, d': T)
    ensures UnwrapOr(Nullable<T>.Null, d) == d && UnwrapOr(Nullable<T>.Undefined, d) == d
    ensures x.Present? ==> UnwrapOr(x, d) == x.value && UnwrapOr(x, d) == UnwrapOr(x, d')
  {
  }

  /** The adapter is `toOption` followed by `Option.unwrapOr`. */
  lemma UnwrapOrIsToOptionUnwrapOr<T>(x: Nullable<T>, d: T)
    ensures UnwrapOr(x, d) == ToOption(x).UnwrapOr(d)
  {
  }

  /** Falsy host values are kept, not replaced by the default: an instance
      of `UnwrapOrMeaning` for a present value. */
  lemma FalsyValuesAreKept(v: HostValue, d: HostValue)
    requires Falsy(v)
    ensures UnwrapOr(Present(v), d) == v
  {
  }
}
