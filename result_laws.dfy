/** Laws of the `Result` combinators and of the bridge to `Option`. */
module ResultLaws {
  import opened OptionResult

  /** The variant predicates are complementary and follow the constructor. */
  lemma VariantPredicates<R, E>(r: Result<R, E>, v: R, e: E)
    ensures Result<R, E>.Ok(v).IsOk() && !Result<R, E>.Ok(v).IsErr()
    ensures !Result<R, E>.Err(e).IsOk() && Result<R, E>.Err(e).IsErr()
    ensures r.IsOk() != r.IsErr()
  {
  }

  /** `isOkAnd(p)` / `isErrAnd(p)` apply `p` to the matching payload and are
      `false` on the other variant. */
  lemma IsOkAndIsErrAndMeaning<R, E>(r: Result<R, E>, p: R -> bool, q: E -> bool)
    ensures r.IsOkAnd(p) <==> r.IsOk() && p(r.value)
    ensures r.IsErrAnd(q) <==> r.IsErr() && q(r.error)
    ensures r.IsOkAnd(p) == r.ProjectOk().IsSomeAnd(p)
    ensures r.IsErrAnd(q) == r.ProjectErr().IsSomeAnd(q)
  {
  }

  /** `ok()` and `err()`: exactly one of them is `Some`, holding the payload. */
  lemma ProjectionsSplit<R, E>(r: Result<R, E>, v: R, e: E)
    ensures Result<R, E>.Ok(v).ProjectOk() == Some(v)
    ensures Result<R, E>.Ok(v).ProjectErr() == None
    ensures Result<R, E>.Err(e).ProjectErr() == Some(e)
    ensures Result<R, E>.Err(e).ProjectOk() == None
    ensures r.ProjectOk().IsSome() == r.IsOk()
    ensures r.ProjectOk().IsSome() != r.ProjectErr().IsSome()
  {
  }

  /** `ok()` followed by `okOr(e)` gives back an `Ok` receiver and replaces
      the error of an `Err` receiver by `e`, which is `or(Err(e))`. */
  lemma ProjectOkThenOkOr<R, E>(r: Result<R, E>, e: E)
    ensures r.ProjectOk().OkOr(e) == r.Or(Err(e))
    ensures r.IsOk() ==> r.ProjectOk().OkOr(e) == r
  {
  }

  /** `map` touches only `Ok` and `mapErr` only `Err`; the untouched side
      passes through, and the two commute. */
  lemma MapAndMapErrMeaning<R, E, U, F>(r: Result<R, E>, f: R -> U, g: E -> F)
    ensures r.Map(f).ProjectOk() == r.ProjectOk().Map(f)
    ensures r.Map(f).ProjectErr() == r.ProjectErr()
    ensures r.MapErr(g).ProjectErr() == r.ProjectErr().Map(g)
    ensures r.MapErr(g).ProjectOk() == r.ProjectOk()
    ensures r.Map(f).MapErr(g) == r.MapErr(g).Map(f)
    ensures r.Map(f) == r.AndThen(x => Ok(f(x)))
  {
  }

  lemma MapIdentity<R, E>(r: Result<R, E>)
    ensures r.Map(x => x) == r
    ensures r.MapErr(x => x) == r
  {
  }

  lemma MapComposition<R, E, U, V>(r: Result<R, E>, f: R -> U, g: U -> V)
    ensures r.Map(f).Map(g) == r.Map(x => g(f(x)))
  {
  }

  lemma MapErrComposition<R, E, F, G>(r: Result<R, E>, f: E -> F, g: F -> G)
    ensures r.MapErr(f).MapErr(g) == r.MapErr(x => g(f(x)))
  {
  }

  /** `mapOr` / `mapOrElse` are `map` followed by the matching fallback; the
      `mapOrElse` fallback receives the error payload. */
  lemma MapOrIsMapThenUnwrapOr<R, E, U>(r: Result<R, E>, d: U, h: E -> U, f: R -> U)
    ensures r.MapOr(d, f) == r.Map(f).UnwrapOr(d)
    ensures r.MapOrElse(h, f) == r.Map(f).UnwrapOrElse(h)
    ensures r.IsErr() ==> r.MapOrElse(h, f) == h(r.error)
  {
  }

  /** The four extractors: each returns the payload of the variant it asks
      for, and rebuilds the receiver from it; `expect` and `expectErr` panic
      with exactly the caller's message. */
  lemma ExtractionUndoesConstructors<R, E>(v: R, e: E, msg: string, showR: R -> string, showE: E -> string)
    ensures Result<R, E>.Ok(v).Unwrap(showE) == Returned(v)
    ensures Result<R, E>.Ok(v).Expect(msg) == Returned(v)
    ensures Result<R, E>.Err(e).UnwrapErr(showR) == Returned(e)
    ensures Result<R, E>.Err(e).ExpectErr(msg) == Returned(e)
    ensures Result<R, E>.Err(e).Expect(msg) == Panicked(msg)
    ensures Result<R, E>.Ok(v).ExpectErr(msg) == Panicked(msg)
    ensures Result<R, E>.Err(e).Unwrap(showE).Panicked?
    ensures Result<R, E>.Ok(v).UnwrapErr(showR).Panicked?
  {
  }

  /** Exactly one of `unwrap` and `unwrapErr` returns, and what it returns
      rebuilds the receiver; `expect` agrees with `unwrap`. */
  lemma ExtractorsAgree<R, E>(r: Result<R, E>, msg: string, showR: R -> string, showE: E -> string)
    ensures r.Unwrap(showE).Returned? != r.UnwrapErr(showR).Returned?
    ensures r.Expect(msg).Returned? == r.Unwrap(showE).Returned?
    ensures r.ExpectErr(msg).Returned? == r.UnwrapErr(showR).Returned?
    ensures r.Unwrap(showE).Returned? ==> Ok(r.Unwrap(showE).value) == r
    ensures r.UnwrapErr(showR).Returned? ==> Err(r.UnwrapErr(showR).value) == r
  {
  }

  /** The fallbacks: the success payload when present, else the default or
      the fallback applied to the error. */
  lemma UnwrapOrFallsBack<R, E>(r: Result<R, E>, d: R, h: E -> R)
    ensures r.UnwrapOr(d) == r.ProjectOk().UnwrapOr(d)
    ensures r.UnwrapOrElse(_ => d) == r.UnwrapOr(d)
    ensures r.UnwrapOrElse(h) == r.MapOrElse(h, x => x)
  {
  }

  /** `and` is `andThen` with a callback that ignores its argument; an `Err`
      receiver is kept. */
  lemma AndIsConstantAndThen<R, E, U>(r: Result<R, E>, x: Result<U, E>)
    ensures r.And(x) == r.AndThen(_ => x)
    ensures r.IsOk() ==> r.And(x) == x
    ensures r.IsErr() ==> r.And(x) == Err(r.error)
  {
  }

  /** `andThen` chains on the success side: `Ok` is its unit and it associates. */
  lemma AndThenMonadLaws<R, E, U, V>(r: Result<R, E>, v: R, f: R -> Result<U, E>, g: U -> Result<V, E>)
    ensures Result<R, E>.Ok(v).AndThen(f) == f(v)
    ensures r.AndThen(x => Ok(x)) == r
    ensures r.AndThen(f).AndThen(g) == r.AndThen(x => f(x).AndThen(g))
  {
  }

  /** `or` is `orElse` with a callback that ignores the error; an `Ok`
      receiver is kept. */
  lemma OrIsConstantOrElse<R, E, F>(r: Result<R, E>, x: Result<R, F>)
    ensures r.Or(x) == r.OrElse(_ => x)
    ensures r.IsOk() ==> r.Or(x) == Ok(r.value)
    ensures r.IsErr() ==> r.Or(x) == x
  {
  }

  /** `orElse` chains on the error side: `Err` is its unit and it associates. */
  lemma OrElseMonadLaws<R, E, F, G>(r: Result<R, E>, e: E, f: E -> Result<R, F>, g: F -> Result<R, G>)
    ensures Result<R, E>.Err(e).OrElse(f) == f(e)
    ensures r.OrElse(x => Err(x)) == r
    ensures r.OrElse(f).OrElse(g) == r.OrElse(x => f(x).OrElse(g))
  {
  }
}
