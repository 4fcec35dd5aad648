/** `toOption`: a nullable value as an `Option`. */
module NullableToOption {
  import opened OptionResult
  import opened Nullable

  /** `None` for `null` and `undefined`, `Some(arg)` for anything else. */
  function ToOption<T>(arg: Nullable<T>): (r: Option<T>)
    ensures r.IsNone() <==> arg.IsAbsent()
    ensures arg.Present? ==> r.Unwrap() == Returned(arg.value)
  {
    if arg.IsAbsent() then None else Some(arg.value)
  }

  /** Both absence markers become `None`. */
  lemma AbsentBecomesNone<T>()
    ensures ToOption(Nullable<T>.Null) == None
    ensures ToOption(Nullable<T>.Undefined) == None
  {
  }

  /** A present value round-trips through `toOption` and `unwrap`, and the
      option is `None` exactly for the absence markers. */
  lemma ToOptionRoundTrip<T>(x: Nullable<T>)
    ensures ToOption(x).IsSome() ==> Present(ToOption(x).value) == x
    ensures ToOption(x).IsNone() <==> x == Null || x == Undefined
  {
  }

  /** Falsy host values are present, not absent: an instance of the
      `Present` case of `ToOption`, which tests only for the markers. */
  lemma FalsyValuesArePresent(v: HostValue)
    requires Falsy(v)
    ensures ToOption(Present(v)) == Some(v)
  {
  }
}
