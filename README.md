# Option and Result, modelled in Dafny

This project models the core of a small TypeScript library that ports Rust's
`Option<T>` and `Result<R, E>`. It also models the four adapters that turn a
nullable value (`T | null | undefined`) into an `Option` or into a plain value.

- `option_result.dfy` (module `OptionResult`). Each factory (`Some`, `None`,
  `Ok`, `Err`) returns a `Readonly`-typed object literal of closures over an
  immutable payload. Here each factory is a constructor of `Option` or
  `Result`, and each method is a member function of the datatype.
  - Callbacks are function-typed parameters.
  - A `throw new Error(msg)` is the outcome `Panicked(msg)` of the datatype
    `Outcome<T> = Returned(value) | Panicked(message)`. This makes every
    member total.
  - `ok()` and `err()` are named `ProjectOk` and `ProjectErr`, so that a
    call does not read like the constructors `Ok` and `Err`.
- `option_laws.dfy` and `result_laws.dfy` relate each method to another
  method, to its inverse or to an independent characterisation:
  - identity and composition for `map` and `mapErr`;
  - `mapOr` is `map` followed by `unwrapOr`;
  - `and` is `andThen` with a constant callback, and `or` is `orElse` with a
    constant callback;
  - the monad laws of `andThen` and `orElse`;
  - the round trips between `Option` and `Result`;
  - the `xor` truth table.
- `invocations.dfy` (module `Invocations`) models what the library's tests
  observe about callbacks. For each variant it lists, as read off the
  source, the arguments a callback is called with. It then proves that the
  result depends on the callback only through its values at those
  arguments. A callback with no recorded call therefore cannot affect the
  result, and `mapOrElse` uses exactly one of its two callbacks. The number
  of calls itself is written down, not derived.
- `chains.dfy` (module `Chains`) covers chains of calls of any length:
  - a chain of `map` calls fuses into one `map`;
  - an `Err` passes unchanged through any chain of `andThen` calls;
  - chains of `andThen` calls concatenate;
  - a chain of `orElse` calls ends in `Some` exactly when some link gives
    `Some`.
- `nullable.dfy`, `to_option.dfy`, `unwrap.dfy`, `unwrap_or.dfy` and
  `unwrap_or_else.dfy` model the adapters. Their argument is the datatype
  `Nullable<T> = Null | Undefined | Present(value)`. Each adapter is proved
  to agree with `toOption` followed by the matching `Option` method.
  `HostValue` and `Falsy` name the falsy host values (`0`, `false`, `""`,
  `NaN`). The adapters keep these values, because they test only for
  `null` and `undefined`.

Several doc comments in `src/option_result.ts` disagree with the code. The
model follows the code:
- The examples for `map`, `mapOr` and `mapOrElse` (lines 286-301) show
  callbacks that return `Some(...)`. The code returns the callback's value
  as it is.
- The example `Ok(1).unwrapOrElse('bar')` (line 116) passes a string where
  the code takes a function of the error.
- The `orElse` examples (lines 327-331) call `or`.

## Model

| member | source | states |
|---|---|---|
| OptionResult.Option.IsNone | src/option_result.ts:379-381 | `isNone()` holds exactly when `isSome()` does not (the `Some` side is at lines 424-426) |
| OptionResult.Option.Expect | src/option_result.ts:375-377 | `expect` returns exactly on `Some`, returning the payload (line 416), and on `None` panics with exactly the caller's message |
| OptionResult.Option.Unwrap | src/option_result.ts:389-391 | `unwrap` returns exactly on `Some`, returning the payload (line 434), and on `None` panics with the fixed message "panic! call \`unwrap\` on a \`None\` value" |
| OptionResult.Option.Filter | src/option_result.ts:417-423 | `filter(fn)` gives `Some` exactly when `isSomeAnd(fn)` holds, and then gives the receiver itself; `None.filter` is `None` (line 378) |
| OptionResult.Option.Xor | src/option_result.ts:437-443 | `xor` gives `Some` exactly when one side is `Some`, and that side is the result (the `None` side is at lines 394-400) |
| OptionResult.Result.IsErr | src/option_result.ts:198-201 | `isErr()` holds exactly when `isOk()` does not (the `Ok` side is at lines 161-164) |
| OptionResult.Result.Expect | src/option_result.ts:208-210 | `expect` returns exactly on `Ok`, returning the value (line 171), and on `Err` panics with exactly the caller's message |
| OptionResult.Result.ExpectErr | src/option_result.ts:172-174 | `expectErr` returns exactly on `Err`, returning the error (line 211), and on `Ok` panics with exactly the caller's message |
| OptionResult.Result.Unwrap | src/option_result.ts:212-214 | `unwrap` returns exactly on `Ok`, returning the value (line 175), and on `Err` panics with the host's rendering of the error |
| OptionResult.Result.UnwrapErr | src/option_result.ts:176-178 | `unwrapErr` returns exactly on `Err`, returning the error (line 215), and on `Ok` panics with the host's rendering of the success value |
| OptionLaws.VariantPredicates | src/option_result.ts:424-426 | `Some(v)` is some and not none, `None()` the reverse, and exactly one predicate holds for every option |
| OptionLaws.IsSomeAndMeaning | src/option_result.ts:425 | `isSomeAnd(p)` is `p(payload)` on `Some` and `false` on `None`; it equals `filter(p).isSome()` and `mapOr(false, p)` |
| OptionLaws.ExtractionUndoesSome | src/option_result.ts:434 | `Some(v).unwrap()` and `Some(v).expect(m)` return `v`; on `None` they panic with the fixed message and with `m` |
| OptionLaws.ExpectAgreesWithUnwrap | src/option_result.ts:416 | `expect` and `unwrap` return on the same options with the same value, and `Some` of that value is the receiver |
| OptionLaws.UnwrapOrFallsBack | src/option_result.ts:435-436 | `unwrapOr(d)` is the payload when `unwrap` returns and `d` otherwise; `unwrapOrElse(() => d)` equals `unwrapOr(d)`, which equals `mapOr(d, id)` |
| OptionLaws.FilterLaws | src/option_result.ts:417-423 | `filter` is idempotent, two filters equal one filter on the conjunction, constant predicates keep or drop everything, and `filter` is an `andThen` |
| OptionLaws.MapMeaning | src/option_result.ts:427 | `Some(v).map(f)` is `Some(f(v))`, `map` keeps the variant, and `map(f)` equals `andThen(x => Some(f(x)))` |
| OptionLaws.MapIdentity | src/option_result.ts:427 | `o.map(x => x)` is `o` |
| OptionLaws.MapComposition | src/option_result.ts:427 | `o.map(f).map(g)` is `o.map(x => g(f(x)))` |
| OptionLaws.MapOrIsMapThenUnwrapOr | src/option_result.ts:428-429 | `mapOr(d, f)` is `map(f).unwrapOr(d)`, `mapOrElse(s, f)` is `map(f).unwrapOrElse(s)`, and a constant supplier makes `mapOrElse` equal to `mapOr` |
| OptionLaws.OkOrRoundTrip | src/option_result.ts:430-431 | `o.okOr(e).ok()` is `o`, `o.okOr(e).err()` is `Some(e)` exactly on `None`, and `okOrElse(() => e)` equals `okOr(e)` |
| OptionLaws.AndIsConstantAndThen | src/option_result.ts:414-415 | `and(x)` is `andThen(_ => x)`: `x` on `Some` and `None` on `None` |
| OptionLaws.AndThenMonadLaws | src/option_result.ts:415 | `Some(v).andThen(f)` is `f(v)`, `andThen(Some)` is the identity, and `andThen` associates |
| OptionLaws.OrLaws | src/option_result.ts:432-433 | `or(x)` is `orElse(() => x)` and keeps a `Some` receiver; `None` is its unit on both sides, and `or` associates |
| OptionLaws.XorTruthTable | src/option_result.ts:437-443 | the four rows of the `xor` truth table |
| OptionLaws.XorLaws | src/option_result.ts:394-400 | `xor` is symmetric, `None` is its unit, and `o.xor(o)` is `None` |
| ResultLaws.VariantPredicates | src/option_result.ts:161-164 | `Ok(v)` is ok and not err, `Err(e)` the reverse, and exactly one predicate holds for every result |
| ResultLaws.IsOkAndIsErrAndMeaning | src/option_result.ts:199-201 | `isOkAnd(p)` and `isErrAnd(q)` apply the predicate to the matching payload and are false otherwise; they equal `ok().isSomeAnd(p)` and `err().isSomeAnd(q)` |
| ResultLaws.ProjectionsSplit | src/option_result.ts:202-203 | `Ok(v).ok()` is `Some(v)` and `Ok(v).err()` is `None`, symmetrically for `Err(e)`, and exactly one projection is `Some` |
| ResultLaws.ProjectOkThenOkOr | src/option_result.ts:165 | `r.ok().okOr(e)` is `r.or(Err(e))`, so it rebuilds an `Ok` receiver |
| ResultLaws.MapAndMapErrMeaning | src/option_result.ts:204-207 | `map` changes only the `ok()` side and `mapErr` only the `err()` side; they commute, and `map(f)` equals `andThen(x => Ok(f(x)))` |
| ResultLaws.MapIdentity | src/option_result.ts:167-170 | `map(x => x)` and `mapErr(x => x)` are the identity |
| ResultLaws.MapComposition | src/option_result.ts:167 | `r.map(f).map(g)` is `r.map(x => g(f(x)))` |
| ResultLaws.MapErrComposition | src/option_result.ts:207 | `r.mapErr(f).mapErr(g)` is `r.mapErr(x => g(f(x)))` |
| ResultLaws.MapOrIsMapThenUnwrapOr | src/option_result.ts:205-206 | `mapOr(d, f)` is `map(f).unwrapOr(d)`, `mapOrElse(h, f)` is `map(f).unwrapOrElse(h)`, and on `Err(e)` `mapOrElse` gives `h(e)` |
| ResultLaws.ExtractionUndoesConstructors | src/option_result.ts:171-178 | `unwrap`/`expect` return the payload of `Ok` and `unwrapErr`/`expectErr` that of `Err`; on the other variant they panic, and `expect*` panic with exactly the caller's message |
| ResultLaws.ExtractorsAgree | src/option_result.ts:208-215 | exactly one of `unwrap` and `unwrapErr` returns, its value rebuilds the receiver, and `expect`/`expectErr` return exactly when `unwrap`/`unwrapErr` do |
| ResultLaws.UnwrapOrFallsBack | src/option_result.ts:216-217 | `unwrapOr(d)` is `ok().unwrapOr(d)`, a constant `unwrapOrElse` is `unwrapOr`, and `unwrapOrElse(h)` is `mapOrElse(h, id)` |
| ResultLaws.AndIsConstantAndThen | src/option_result.ts:218-219 | `and(x)` is `andThen(_ => x)`: `x` on `Ok`, and the same error on `Err` |
| ResultLaws.AndThenMonadLaws | src/option_result.ts:182 | `Ok(v).andThen(f)` is `f(v)`, `andThen(Ok)` is the identity, and `andThen` associates |
| ResultLaws.OrIsConstantOrElse | src/option_result.ts:183-184 | `or(x)` is `orElse(_ => x)`: the same `Ok` on `Ok`, and `x` on `Err` |
| ResultLaws.OrElseMonadLaws | src/option_result.ts:221 | `Err(e).orElse(f)` is `f(e)`, `orElse(Err)` is the identity, and `orElse` associates |
| Invocations.OptionMapOrElseRunsOneSide | src/option_result.ts:384 | `mapOrElse` on `Some` gives `fn(payload)` whatever the supplier, and on `None` gives the supplier's value whatever `fn` (the `Some` side is at line 429) |
| Invocations.PayloadCallbacksSeeOnlyTheirCalls | src/option_result.ts:425-429 | `isSomeAnd`, `filter`, `map`, `mapOr`, `mapOrElse` and `andThen` depend on their callback only at the payload on `Some`, and not at all on `None` |
| Invocations.SuppliersSeeOnlyTheirCalls | src/option_result.ts:384-388 | `unwrapOrElse`, `mapOrElse`, `okOrElse` and `orElse` ignore their supplier on `Some`, and on `None` depend only on the supplier's value |
| Invocations.ResultMapOrElseRunsOneSide | src/option_result.ts:169 | `mapOrElse` on `Ok(v)` gives `fn(v)` whatever the error callback, and on `Err(e)` gives the error callback's value at `e` whatever `fn` (the `Err` side is at line 206) |
| Invocations.OkCallbacksSeeOnlyTheirCalls | src/option_result.ts:162-169 | `isOkAnd`, `map`, `mapOr`, `mapOrElse` and `andThen` depend on their success callback only at the value on `Ok`, and not at all on `Err` |
| Invocations.ErrCallbacksSeeOnlyTheirCalls | src/option_result.ts:199-221 | `isErrAnd`, `mapErr`, `mapOrElse`, `unwrapOrElse` and `orElse` depend on their error callback only at the error on `Err`, and not at all on `Ok` |
| Chains.MapEachFuses | src/option_result.ts:427 | a chain `o.map(f1)...map(fn)` equals one `map` of the composed function |
| Chains.ResultMapEachFuses | src/option_result.ts:167 | a chain of `map` calls on a result equals one `map` of the composed function |
| Chains.ErrPassesThroughAndThenEach | src/option_result.ts:219 | `Err(e)` passes unchanged through any chain of `andThen` calls |
| Chains.AndThenEachNeedsOkReceiver | src/option_result.ts:182 | a chain of `andThen` calls ends in `Ok` only if its receiver is `Ok` |
| Chains.AndThenEachAppend | src/option_result.ts:182 | running two `andThen` chains one after the other equals running their concatenation |
| Chains.SomeSurvivesOrElseEach | src/option_result.ts:433 | a `Some` receiver is the result of any chain of `orElse` calls |
| Chains.OrElseEachFindsSome | src/option_result.ts:388 | a chain of `orElse` calls ends in `Some` exactly when the receiver or one of the suppliers gives `Some` |
| NullableToOption.ToOption | src/to_option.ts:17-23 | the option is `None` exactly for `null` and `undefined`, and `unwrap()` returns a present argument unchanged |
| NullableToOption.AbsentBecomesNone | src/to_option.ts:18-19 | `toOption(null)` and `toOption(undefined)` are `None` |
| NullableToOption.ToOptionRoundTrip | src/to_option.ts:22 | a `Some` result holds exactly the argument, and `None` arises exactly from the two absence markers |
| NullableToOption.FalsyValuesArePresent | src/to_option.ts:18 | falsy values (`0`, `false`, `""`, `NaN`) become `Some` of themselves, as every present value does |
| NullableUnwrap.Unwrap | src/unwrap.ts:12-18 | `unwrap` returns exactly when the value is neither `null` nor `undefined`, returning it unchanged, and otherwise panics with the message naming the marker |
| NullableUnwrap.UnwrapPanicsOnMarkers | src/unwrap.ts:13-14 | `null` and `undefined` panic with a message naming the marker |
| NullableUnwrap.UnwrapReturnsPresentValue | src/unwrap.ts:17 | a present value is returned unchanged |
| NullableUnwrap.UnwrapAgreesWithToOption | src/unwrap.ts:13-17 | `unwrap(x)` returns exactly when `toOption(x).unwrap()` does, with the same value; the panic messages differ |
| NullableUnwrap.FalsyValuesDoNotPanic | src/unwrap.ts:13 | falsy values are returned, not rejected |
| NullableUnwrapOr.UnwrapOrMeaning | src/unwrap_or.ts:13-19 | `null` and `undefined` give the default; a present value is returned and the default ignored |
| NullableUnwrapOr.UnwrapOrIsToOptionUnwrapOr | src/unwrap_or.ts:13-19 | `unwrapOr(x, d)` is `toOption(x).unwrapOr(d)` |
| NullableUnwrapOr.FalsyValuesAreKept | src/unwrap_or.ts:14 | falsy values are kept, not replaced by the default |
| NullableUnwrapOrElse.UnwrapOrElseMeaning | src/unwrap_or_else.ts:17-21 | an absence marker yields `getDefaultValue()`; a present value is returned unchanged |
| NullableUnwrapOrElse.SupplierSeenOnlyWhenCalled | src/unwrap_or_else.ts:17-21 | for a present value the result does not depend on the supplier, and for `null` or `undefined` it depends only on the supplier's value |
| NullableUnwrapOrElse.UnwrapOrElseIsToOptionUnwrapOrElse | src/unwrap_or_else.ts:13-22 | `unwrapOrElse(x, s)` is `toOption(x).unwrapOrElse(s)`, and the recorded supplier calls are those of `Option.unwrapOrElse` on `toOption(x)` |
| NullableUnwrapOrElse.FalsyValuesAreKept | src/unwrap_or_else.ts:17 | falsy values are kept, and no supplier call is recorded for them |

## Left out

- src/get_result.ts turns the settlement of a Promise into a `Result`. It is asynchronous and relies entirely on the host's Promise machinery, so it is not part of this model.
- src/try_catch.ts turns a thrown value into an `Err`. It relies on the host's exception mechanism, so it is not part of this model.
- OptionResult.Result.Unwrap: the panic message is the host's implicit string conversion of the error (`${err}`). The model takes that conversion as the parameter `show` and does not fix its text.
- OptionResult.Result.UnwrapErr: the panic message is the host's implicit string conversion of the success value. The model takes that conversion as the parameter `show` and does not fix its text.
- Object identity: `filter`, `or`, `orElse` and `xor` return the very object `self`, and the tests compare with `toBe`. The model compares datatype values structurally instead.
- Callbacks are pure functions. The model does not cover a callback that throws or has side effects. It keeps only the arguments at which a result may depend on a callback (module `Invocations`); how many times a callback is called is recorded by hand from the source, not derived from the combinators.
- Host numbers are integers in `HostValue`, and `NaN` is one distinct value. Floating point is not modelled.
- The re-exports checked by src/index.test.ts, src/option.test.ts and src/result.test.ts are wiring only, and are not modelled.
- `Readonly` typing: the objects are read-only only to the type checker (nothing calls `Object.freeze`); datatype values are immutable, so mutation through an untyped reference is not modelled.
- Nested absence: the host type `T | null | undefined` collapses, so `toOption` never yields `Some(null)`. In the model `Present(v)` may itself hold a `Nullable` marker (`ToOption(Present(Null))` is `Some(Null)`); the model assumes `T` never contains `null` or `undefined`.
