/** `unwrap`: a nullable value, or a panic on `null` / `undefined`. */
module NullableUnwrap {
  import opened OptionResult
  import opened Nullable
  import opened NullableToOption

  /** The host's string rendering of an absence marker. */
  function MarkerName<T>(value: Nullable<T>): string
    requires value.IsAbsent()
  {
    if value.Null? then "null" else "undefined"
  }

  /** The panic message names the absence marker it met. */
  function PanicMessage<T>(value: Nullable<T>): string
    requires value.IsAbsent()
  {
    "panic! call `unwrap` on a `" + MarkerName(value) + "` value"
  }

  function Unwrap<T>(value: Nullable<T>): (r: Outcome<T>)
    ensures r.Returned? <==> !value.IsAbsent()
    ensures r.Returned? ==> r.value == value.value
    ensures r.Panicked? ==> r.message == PanicMessage(value)
  {
    if value.IsAbsent() then Panicked(PanicMessage(value)) else Returned(value.value)
  }

  /** The two panics and their messages. */
  lemma UnwrapPanicsOnMarkers<T>()
    ensures Unwrap(Nullable<T>.Null) == Panicked("panic! call `unwrap` on a `null` value")
    ensures Unwrap(Nullable<T>.Undefined) == Panicked("panic! call `unwrap` on a `undefined` value")
  {
  }

  /** A present value comes back unchanged. */
  lemma UnwrapReturnsPresentValue<T>(v: T)
    ensures Unwrap(Present(v)) == Returned(v)
  {
  }

  /** `unwrap(x)` returns exactly when `toOption(x).unwrap()` does, with the
      same value; only the panic messages differ. */
  lemma UnwrapAgreesWithToOption<T>(x: Nullable<T>)
    ensures Unwrap(x).Returned? == ToOption(x).Unwrap().Returned?
    ensures Unwrap(x).Returned? ==> Unwrap(x) == ToOption(x).Unwrap()
    ensures Unwrap(x).Panicked? ==> Unwrap(x).message != ToOption(x).Unwrap().message
  {
    if x.IsAbsent() {
      // both messages share the prefix up to the opening backtick of the marker
      assert Unwrap(x).message[27] != UnwrapNoneMessage[27];
    }
  }

  /** Falsy host values do not panic: an instance of
      `UnwrapReturnsPresentValue`. */
  lemma FalsyValuesDoNotPanic(v: HostValue)
    requires Falsy(v)
    ensures Unwrap(Present(v)) == Returned(v)
  {
  }
}
