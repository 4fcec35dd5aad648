/** Which callbacks a combinator invokes, and with what.

    For each variant the source either calls a callback (once, with the
    payload it holds) or never touches it. The functions below list the
    arguments of those calls, as read off the source; they are written by
    hand, not derived. The lemmas show that a combinator's result depends
    on a callback only through its values at exactly those arguments, so a
    callback with no recorded call cannot influence the result, and one
    recorded once is consulted only at the payload. */
module Invocations {
  import opened OptionResult

  /** The calls made to the payload callback of `isSomeAnd`, `filter`, `map`,
      `mapOr`, `mapOrElse` (its second argument) and `andThen`. */
  function PayloadCalls<T>(o: Option<T>): seq<T> {
    match o
    case Some(v) => [v]
    case None => []
  }

  /** The number of calls made to the zero-argument supplier of
      `unwrapOrElse`, `mapOrElse` (its first argument), `okOrElse` and `orElse`. */
  function SupplierCalls<T>(o: Option<T>): nat {
    match o
    case Some(_) => 0
    case None => 1
  }

  /** `mapOrElse` uses exactly one of its two callbacks: on `Some` the
      payload callback at the payload, whatever the supplier; on `None` the
      supplier's value, whatever the payload callback. */
  lemma OptionMapOrElseRunsOneSide<T, U>(o: Option<T>, s: () -> U, s': () -> U, f: T -> U, g: T -> U)
    ensures o.IsSome() ==> o.MapOrElse(s, f) == o.MapOrElse(s', f) && o.MapOrElse(s, f) == f(o.value)
    ensures o.IsNone() ==> o.MapOrElse(s, f) == o.MapOrElse(s, g) && o.MapOrElse(s, f) == s()
  {
  }

  /** Payload callbacks that agree at the recorded calls give equal results. */
  lemma PayloadCallbacksSeeOnlyTheirCalls<T, U>(o: Option<T>, f: T -> U, g: T -> U, p: T -> bool, q: T -> bool,
                                                h: T -> Option<U>, k: T -> Option<U>, d: U, s: () -> U)
    requires forall a :: a in PayloadCalls(o) ==> f(a) == g(a) && p(a) == q(a) && h(a) == k(a)
    ensures o.IsSomeAnd(p) == o.IsSomeAnd(q)
    ensures o.Filter(p) == o.Filter(q)
    ensures o.Map(f) == o.Map(g)
    ensures o.MapOr(d, f) == o.MapOr(d, g)
    ensures o.MapOrElse(s, f) == o.MapOrElse(s, g)
    ensures o.AndThen(h) == o.AndThen(k)
  {
  }

  /** Suppliers matter only when they are called, and then only through the
      value of that one call. */
  lemma SuppliersSeeOnlyTheirCalls<T, U, E>(o: Option<T>, s1: () -> T, s2: () -> T, d1: () -> U, d2: () -> U,
                                            e1: () -> E, e2: () -> E, o1: () -> Option<T>, o2: () -> Option<T>, f: T -> U)
    requires SupplierCalls(o) == 0 || (s1() == s2() && d1() == d2() && e1() == e2() && o1() == o2())
    ensures o.UnwrapOrElse(s1) == o.UnwrapOrElse(s2)
    ensures o.MapOrElse(d1, f) == o.MapOrElse(d2, f)
    ensures o.OkOrElse(e1) == o.OkOrElse(e2)
    ensures o.OrElse(o1) == o.OrElse(o2)
  {
  }

  /** The calls made to the success callback of `isOkAnd`, `map`, `mapOr`,
      `mapOrElse` (its second argument) and `andThen`. */
  function OkCalls<R, E>(r: Result<R, E>): seq<R> {
    match r
    case Ok(v) => [v]
    case Err(_) => []
  }

  /** The calls made to the error callback of `isErrAnd`, `mapErr`,
      `mapOrElse` (its first argument), `unwrapOrElse` and `orElse`. */
  function ErrCalls<R, E>(r: Result<R, E>): seq<E> {
    match r
    case Ok(_) => []
    case Err(e) => [e]
  }

  /** `mapOrElse` on a `Result` uses exactly one of its two callbacks: on
      `Ok` the success callback at the value, whatever the error callback; on
      `Err` the error callback at the error, whatever the success callback. */
  lemma ResultMapOrElseRunsOneSide<R, E, U>(r: Result<R, E>, h: E -> U, h': E -> U, f: R -> U, g: R -> U)
    ensures r.IsOk() ==> r.MapOrElse(h, f) == r.MapOrElse(h', f) && r.MapOrElse(h, f) == f(r.value)
    ensures r.IsErr() ==> r.MapOrElse(h, f) == r.MapOrElse(h, g) && r.MapOrElse(h, f) == h(r.error)
  {
  }

  /** Success callbacks that agree at the recorded calls give equal results. */
  lemma OkCallbacksSeeOnlyTheirCalls<R, E, U>(r: Result<R, E>, f: R -> U, g: R -> U, p: R -> bool, q: R -> bool,
                                              h: R -> Result<U, E>, k: R -> Result<U, E>, d: U, s: E -> U)
    requires forall a :: a in OkCalls(r) ==> f(a) == g(a) && p(a) == q(a) && h(a) == k(a)
    ensures r.IsOkAnd(p) == r.IsOkAnd(q)
    ensures r.Map(f) == r.Map(g)
    ensures r.MapOr(d, f) == r.MapOr(d, g)
    ensures r.MapOrElse(s, f) == r.MapOrElse(s, g)
    ensures r.AndThen(h) == r.AndThen(k)
  {
  }

  /** Error callbacks that agree at the recorded calls give equal results. */
  lemma ErrCallbacksSeeOnlyTheirCalls<R, E, F, U>(r: Result<R, E>, f: E -> F, g: E -> F, p: E -> bool, q: E -> bool,
                                                  d1: E -> U, d2: E -> U, u1: E -> R, u2: E -> R,
                                                  h: E -> Result<R, F>, k: E -> Result<R, F>, fn: R -> U)
    requires forall a :: a in ErrCalls(r) ==> f(a) == g(a) && p(a) == q(a) && d1(a) == d2(a) && u1(a) == u2(a) && h(a) == k(a)
    ensures r.IsErrAnd(p) == r.IsErrAnd(q)
    ensures r.MapErr(f) == r.MapErr(g)
    ensures r.MapOrElse(d1, fn) == r.MapOrElse(d2, fn)
    ensures r.UnwrapOrElse(u1) == r.UnwrapOrElse(u2)
    ensures r.OrElse(h) == r.OrElse(k)
  {
  }
}
