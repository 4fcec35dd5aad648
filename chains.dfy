/** Chains of combinator calls, `o.map(f1).map(f2)…`, `r.andThen(s1).andThen(s2)…`
    and `o.orElse(g1).orElse(g2)…`, and the laws that hold for chains of any
    length: fusion of maps, short-circuiting of failures, first success wins. */
module Chains {
  import opened OptionResult

  /** Applies `fns` to `x` in order: `fns[0]` first. */
  function Apply<T>(fns: seq<T -> T>, x: T): T
    decreases |fns|
  {
    if |fns| == 0 then x else Apply(fns[1..], fns[0](x))
  }

  /** `o.map(fns[0]).map(fns[1])…` */
  function MapEach<T>(o: Option<T>, fns: seq<T -> T>): Option<T>
    decreases |fns|
  {
    if |fns| == 0 then o else MapEach(o.Map(fns[0]), fns[1..])
  }

  /** A chain of `map` calls is one `map` of the composed function, so it
      keeps `None` as `None` and calls nothing on it. */
  lemma {:induction false} MapEachFuses<T>(o: Option<T>, fns: seq<T -> T>)
    ensures MapEach(o, fns) == o.Map(x => Apply(fns, x))
    decreases |fns|
  {
    if |fns| == 0 {
      assert o.Map(x => Apply(fns, x)) == o.Map(x => x);
    } else {
      MapEachFuses(o.Map(fns[0]), fns[1..]);
    }
  }

  /** `r.map(fns[0]).map(fns[1])…` */
  function ResultMapEach<R, E>(r: Result<R, E>, fns: seq<R -> R>): Result<R, E>
    decreases |fns|
  {
    if |fns| == 0 then r else ResultMapEach(r.Map(fns[0]), fns[1..])
  }

  /** A chain of `map` calls on a `Result` is one `map` of the composed function. */
  lemma {:induction false} ResultMapEachFuses<R, E>(r: Result<R, E>, fns: seq<R -> R>)
    ensures ResultMapEach(r, fns) == r.Map(x => Apply(fns, x))
    decreases |fns|
  {
    if |fns| == 0 {
      assert r.Map(x => Apply(fns, x)) == r.Map(x => x);
    } else {
      ResultMapEachFuses(r.Map(fns[0]), fns[1..]);
    }
  }

  /** `r.andThen(steps[0]).andThen(steps[1])…` */
  function AndThenEach<R, E>(r: Result<R, E>, steps: seq<R -> Result<R, E>>): Result<R, E>
    decreases |steps|
  {
    if |steps| == 0 then r else AndThenEach(r.AndThen(steps[0]), steps[1..])
  }

  /** An error passes unchanged through any chain of `andThen` steps. */
  lemma {:induction false} ErrPassesThroughAndThenEach<R, E>(e: E, steps: seq<R -> Result<R, E>>)
    ensures AndThenEach(Err(e), steps) == Err(e)
    decreases |steps|
  {
    if |steps| != 0 {
      ErrPassesThroughAndThenEach(e, steps[1..]);
    }
  }

  /** A chain succeeds only if its receiver did. */
  lemma {:induction false} AndThenEachNeedsOkReceiver<R, E>(r: Result<R, E>, steps: seq<R -> Result<R, E>>)
    ensures AndThenEach(r, steps).IsOk() ==> r.IsOk()
  {
    if r.IsErr() {
      ErrPassesThroughAndThenEach(r.error, steps);
    }
  }

  /** Running two chains one after the other is running their concatenation. */
  lemma {:induction false} AndThenEachAppend<R, E>(r: Result<R, E>, s1: seq<R -> Result<R, E>>, s2: seq<R -> Result<R, E>>)
    ensures AndThenEach(r, s1 + s2) == AndThenEach(AndThenEach(r, s1), s2)
    decreases |s1|
  {
    if |s1| == 0 {
      assert s1 + s2 == s2;
    } else {
      assert (s1 + s2)[1..] == s1[1..] + s2;
      AndThenEachAppend(r.AndThen(s1[0]), s1[1..], s2);
    }
  }

  /** `o.orElse(suppliers[0]).orElse(suppliers[1])…` */
  function OrElseEach<T>(o: Option<T>, suppliers: seq<() -> Option<T>>): Option<T>
    decreases |suppliers|
  {
    if |suppliers| == 0 then o else OrElseEach(o.OrElse(suppliers[0]), suppliers[1..])
  }

  /** A `Some` receiver survives any chain of `orElse` calls. */
  lemma {:induction false} SomeSurvivesOrElseEach<T>(o: Option<T>, suppliers: seq<() -> Option<T>>)
    requires o.IsSome()
    ensures OrElseEach(o, suppliers) == o
    decreases |suppliers|
  {
    if |suppliers| != 0 {
      SomeSurvivesOrElseEach(o, suppliers[1..]);
    }
  }

  /** A chain of `orElse` calls ends in `Some` exactly when the receiver or
      one of the suppliers gives `Some`. */
  lemma {:induction false} OrElseEachFindsSome<T>(o: Option<T>, suppliers: seq<() -> Option<T>>)
    ensures OrElseEach(o, suppliers).IsSome() <==>
            o.IsSome() || exists i :: 0 <= i < |suppliers| && suppliers[i]().IsSome()
    decreases |suppliers|
  {
    if |suppliers| != 0 {
      var rest := suppliers[1..];
      OrElseEachFindsSome(o.OrElse(suppliers[0]), rest);
      if exists i :: 0 <= i < |rest| && rest[i]().IsSome() {
        var i :| 0 <= i < |rest| && rest[i]().IsSome();
        assert suppliers[i + 1] == rest[i];
      }
      if exists i :: 0 <= i < |suppliers| && suppliers[i]().IsSome() {
        var i :| 0 <= i < |suppliers| && suppliers[i]().IsSome();
        if i > 0 {
          assert rest[i - 1] == suppliers[i];
        }
      }
    }
  }
}
