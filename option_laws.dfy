/** Laws of the `Option` combinators: each method is related to another
    method, to its inverse or to an independent characterisation. */
module OptionLaws {
  import opened OptionResult

  /** The variant predicates are complementary and follow the constructor. */
  lemma VariantPredicates<T>(o: Option<T>, v: T)
    ensures Some(v).IsSome() && !Some(v).IsNone()
    ensures !Option<T>.None.IsSome() && Option<T>.None.IsNone()
    ensures o.IsSome() != o.IsNone()
  {
  }

  /** `isSomeAnd(p)` is `p(payload)` on `Some` and `false` on `None`; it holds
      exactly when `filter(p)` keeps the value. */
  lemma IsSomeAndMeaning<T>(o: Option<T>, p: T -> bool)
    ensures o.IsSomeAnd(p) <==> o.IsSome() && p(o.value)
    ensures o.IsSomeAnd(p) == o.Filter(p).IsSome()
    ensures o.IsSomeAnd(p) == o.MapOr(false, p)
  {
  }

  /** `unwrap` and `expect` undo `Some` and panic on `None`: `None.unwrap()`
      with the fixed message, `None.expect(msg)` with exactly `msg`. */
  lemma ExtractionUndoesSome<T>(v: T, msg: string)
    ensures Some(v).Unwrap() == Returned(v)
    ensures Some(v).Expect(msg) == Returned(v)
    ensures Option<T>.None.Unwrap() == Panicked(UnwrapNoneMessage)
    ensures Option<T>.None.Expect(msg) == Panicked(msg)
  {
  }

  /** `expect` and `unwrap` succeed on the same receivers with the same value,
      and what they return rebuilds the receiver. */
  lemma ExpectAgreesWithUnwrap<T>(o: Option<T>, msg: string)
    ensures o.Expect(msg).Returned? == o.Unwrap().Returned?
    ensures o.Unwrap().Returned? ==> o.Expect(msg).value == o.Unwrap().value
    ensures o.Unwrap().Returned? ==> Some(o.Unwrap().value) == o
  {
  }

  /** The fallbacks: the payload when present (the default unused), the
      default otherwise; `unwrapOrElse` with a constant supplier is `unwrapOr`. */
  lemma UnwrapOrFallsBack<T>(o: Option<T>, d: T)
    ensures o.UnwrapOr(d) == (if o.Unwrap().Returned? then o.Unwrap().value else d)
    ensures o.UnwrapOrElse(() => d) == o.UnwrapOr(d)
    ensures o.UnwrapOr(d) == o.MapOr(d, x => x)
  {
  }

  /** `filter` is idempotent, two filters are one filter on the conjunction,
      and a filter is an `andThen` that keeps or drops the payload. */
  lemma FilterLaws<T>(o: Option<T>, p: T -> bool, q: T -> bool)
    ensures o.Filter(p).Filter(p) == o.Filter(p)
    ensures o.Filter(p).Filter(q) == o.Filter(x => p(x) && q(x))
    ensures o.Filter(x => true) == o
    ensures o.Filter(x => false) == None
    ensures o.Filter(p) == o.AndThen(x => if p(x) then Some(x) else None)
  {
  }

  /** `Some(v).map(f) = Some(f(v))`, `None.map(f) = None`. */
  lemma MapMeaning<T, U>(o: Option<T>, f: T -> U)
    ensures o.Map(f).IsSome() == o.IsSome()
    ensures o.IsSome() ==> o.Map(f) == Some(f(o.value))
    ensures o.Map(f) == o.AndThen(x => Some(f(x)))
  {
  }

  lemma MapIdentity<T>(o: Option<T>)
    ensures o.Map(x => x) == o
  {
  }

  lemma MapComposition<T, U, V>(o: Option<T>, f: T -> U, g: U -> V)
    ensures o.Map(f).Map(g) == o.Map(x => g(f(x)))
  {
  }

  /** `mapOr` and `mapOrElse` are `map` followed by the matching fallback. */
  lemma MapOrIsMapThenUnwrapOr<T, U>(o: Option<T>, d: U, s: () -> U, f: T -> U)
    ensures o.MapOr(d, f) == o.Map(f).UnwrapOr(d)
    ensures o.MapOrElse(s, f) == o.Map(f).UnwrapOrElse(s)
    ensures o.MapOrElse(() => d, f) == o.MapOr(d, f)
  {
  }

  /** Conversion to `Result` and back: `okOr` loses nothing, `ok()` recovers
      the option and `err()` recovers the supplied error exactly on `None`. */
  lemma OkOrRoundTrip<T, E>(o: Option<T>, e: E)
    ensures o.OkOr(e).ProjectOk() == o
    ensures o.OkOr(e).ProjectErr() == (if o.IsNone() then Some(e) else None)
    ensures o.OkOr(e).IsOk() == o.IsSome()
    ensures o.OkOrElse(() => e) == o.OkOr(e)
  {
  }

  /** `and` is `andThen` with a callback that ignores its argument. */
  lemma AndIsConstantAndThen<T, U>(o: Option<T>, x: Option<U>)
    ensures o.And(x) == o.AndThen(_ => x)
    ensures o.IsSome() ==> o.And(x) == x
    ensures o.IsNone() ==> o.And(x) == None
  {
  }

  /** `andThen` chains: `Some` is its unit on both sides and it associates. */
  lemma AndThenMonadLaws<T, U, V>(o: Option<T>, v: T, f: T -> Option<U>, g: U -> Option<V>)
    ensures Some(v).AndThen(f) == f(v)
    ensures o.AndThen(x => Some(x)) == o
    ensures o.AndThen(f).AndThen(g) == o.AndThen(x => f(x).AndThen(g))
  {
  }

  /** `or` is `orElse` with a constant supplier; it keeps a `Some` receiver,
      has `None` as unit on both sides, and associates. */
  lemma OrLaws<T>(o: Option<T>, x: Option<T>, y: Option<T>)
    ensures o.Or(x) == o.OrElse(() => x)
    ensures o.IsSome() ==> o.Or(x) == o
    ensures None.Or(x) == x && x.Or(None) == x
    ensures o.Or(x).Or(y) == o.Or(x.Or(y))
    ensures o.Or(x).IsSome() == (o.IsSome() || x.IsSome())
  {
  }

  /** The four rows of the `xor` truth table. */
  lemma XorTruthTable<T>(a: T, b: T)
    ensures Some(a).Xor(Some(b)) == None
    ensures Some(a).Xor(None) == Some(a)
    ensures None.Xor(Some(b)) == Some(b)
    ensures Option<T>.None.Xor(None) == None
  {
  }

  /** `xor` is symmetric, `None` is its unit and every option cancels itself. */
  lemma XorLaws<T>(o: Option<T>, x: Option<T>)
    ensures o.Xor(x) == x.Xor(o)
    ensures o.Xor(None) == o
    ensures o.Xor(o) == None
  {
  }
}
