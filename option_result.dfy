/** The two closed sum types of the library, `Option<T>` and `Result<R, E>`,
    with one member function per method of the object each factory builds.

    Every factory (`Some`, `None`, `Ok`, `Err`) returns a `Readonly`-typed
    object literal of closures over an immutable payload; here each variant
    is a datatype constructor and each closure a branch of a `match`. Callbacks are
    function-typed parameters. A `throw new Error(msg)` is the `Panicked(msg)`
    outcome of the `Outcome` datatype, so every member is total.
 */
module OptionResult {

  /** What an extracting method does: return a value, or panic with a message. */
  datatype Outcome<+T> = Returned(value: T) | Panicked(message: string)

  /** The fixed message of `None().unwrap()`. */
  const UnwrapNoneMessage: string := "panic! call `unwrap` on a `None` value"

  /** `Some(value)` or `None()`. */
  datatype Option<+T> = None | Some(value: T) {

    predicate IsSome() {
      match this
      case Some(_) => true
      case None => false
    }

    /** Exactly one of `IsSome` and `IsNone` holds. */
    predicate IsNone(): (r: bool)
      ensures r <==> !IsSome()
    {
      match this
      case Some(_) => false
      case None => true
    }

    /** `pred(value)` on `Some`; `false` on `None`, where `pred` is not called. */
    predicate IsSomeAnd(pred: T -> bool) {
      match this
      case Some(v) => pred(v)
      case None => false
    }

    function Expect(msg: string): (r: Outcome<T>)
      ensures r.Returned? <==> IsSome()
      ensures r.Returned? ==> r.value == value
      ensures r.Panicked? ==> r.message == msg
    {
      match this
      case Some(v) => Returned(v)
      case None => Panicked(msg)
    }

    function Unwrap(): (r: Outcome<T>)
      ensures r.Returned? <==> IsSome()
      ensures r.Returned? ==> r.value == value
      ensures r.Panicked? ==> r.message == UnwrapNoneMessage
    {
      match this
      case Some(v) => Returned(v)
      case None => Panicked(UnwrapNoneMessage)
    }

    function UnwrapOr(defaultValue: T): T {
      match this
      case Some(v) => v
      case None => defaultValue
    }

    function UnwrapOrElse(getDefaultValue: () -> T): T {
      match this
      case Some(v) => v
      case None => getDefaultValue()
    }

    /** Keeps the receiver when its payload satisfies `fn`, otherwise gives `None`. */
    function Filter(fn: T -> bool): (r: Option<T>)
      ensures r.IsSome() <==> IsSomeAnd(fn)
      ensures r.IsSome() ==> r == this
    {
      match this
      case Some(v) => if fn(v) then this else None
      case None => this
    }

    function Map<U>(fn: T -> U): Option<U> {
      match this
      case Some(v) => Some(fn(v))
      case None => None
    }

    function MapOr<U>(defaultValue: U, fn: T -> U): U {
      match this
      case Some(v) => fn(v)
      case None => defaultValue
    }

    function MapOrElse<U>(getDefaultValue: () -> U, fn: T -> U): U {
      match this
      case Some(v) => fn(v)
      case None => getDefaultValue()
    }

    function OkOr<E>(err: E): Result<T, E> {
      match this
      case Some(v) => Ok(v)
      case None => Err(err)
    }

    function OkOrElse<E>(getErr: () -> E): Result<T, E> {
      match this
      case Some(v) => Ok(v)
      case None => Err(getErr())
    }

    function And<U>(opt: Option<U>): Option<U> {
      match this
      case Some(_) => opt
      case None => None
    }

    function AndThen<U>(fn: T -> Option<U>): Option<U> {
      match this
      case Some(v) => fn(v)
      case None => None
    }

    function Or(opt: Option<T>): Option<T> {
      match this
      case Some(_) => this
      case None => opt
    }

    function OrElse(fn: () -> Option<T>): Option<T> {
      match this
      case Some(_) => this
      case None => fn()
    }

    /** Exclusive or over presence: the one present side when exactly one
        side is present, `None` otherwise. */
    function Xor(opt: Option<T>): (r: Option<T>)
      ensures r.IsSome() <==> (IsSome() != opt.IsSome())
      ensures IsSome() && opt.IsNone() ==> r == this
      ensures IsNone() && opt.IsSome() ==> r == opt
    {
      match this
      case Some(_) => if opt.IsNone() then this else None
      case None => if opt.IsSome() then opt else this
    }
  }

  /** `Ok(value)` or `Err(error)`. */
  datatype Result<+R, +E> = Ok(value: R) | Err(error: E) {

    predicate IsOk() {
      match this
      case Ok(_) => true
      case Err(_) => false
    }

    /** Exactly one of `IsOk` and `IsErr` holds. */
    predicate IsErr(): (r: bool)
      ensures r <==> !IsOk()
    {
      match this
      case Ok(_) => false
      case Err(_) => true
    }

    predicate IsOkAnd(fn: R -> bool) {
      match this
      case Ok(v) => fn(v)
      case Err(_) => false
    }

    predicate IsErrAnd(fn: E -> bool) {
      match this
      case Ok(_) => false
      case Err(e) => fn(e)
    }

    /** The method `ok()`: the success payload as an `Option`. */
    function ProjectOk(): Option<R> {
      match this
      case Ok(v) => Some(v)
      case Err(_) => None
    }

    /** The method `err()`: the error payload as an `Option`. */
    function ProjectErr(): Option<E> {
      match this
      case Ok(_) => None
      case Err(e) => Some(e)
    }

    function Map<U>(fn: R -> U): Result<U, E> {
      match this
      case Ok(v) => Ok(fn(v))
      case Err(e) => Err(e)
    }

    function MapOr<U>(defaultValue: U, fn: R -> U): U {
      match this
      case Ok(v) => fn(v)
      case Err(_) => defaultValue
    }

    function MapOrElse<U>(getDefaultValue: E -> U, fn: R -> U): U {
      match this
      case Ok(v) => fn(v)
      case Err(e) => getDefaultValue(e)
    }

    function MapErr<F>(fn: E -> F): Result<R, F> {
      match this
      case Ok(v) => Ok(v)
      case Err(e) => Err(fn(e))
    }

    function Expect(msg: string): (r: Outcome<R>)
      ensures r.Returned? <==> IsOk()
      ensures r.Returned? ==> r.value == value
      ensures r.Panicked? ==> r.message == msg
    {
      match this
      case Ok(v) => Returned(v)
      case Err(_) => Panicked(msg)
    }

    function ExpectErr(msg: string): (r: Outcome<E>)
      ensures r.Returned? <==> IsErr()
      ensures r.Returned? ==> r.value == error
      ensures r.Panicked? ==> r.message == msg
    {
      match this
      case Ok(_) => Panicked(msg)
      case Err(e) => Returned(e)
    }

    /** The panic message is the host's string rendering of the error,
        which this model takes as the parameter `show`. */
    function Unwrap(show: E -> string): (r: Outcome<R>)
      ensures r.Returned? <==> IsOk()
      ensures r.Returned? ==> r.value == value
      ensures r.Panicked? ==> r.message == show(error)
    {
      match this
      case Ok(v) => Returned(v)
      case Err(e) => Panicked(show(e))
    }

    /** The panic message is the host's string rendering of the success
        payload, which this model takes as the parameter `show`. */
    function UnwrapErr(show: R -> string): (r: Outcome<E>)
      ensures r.Returned? <==> IsErr()
      ensures r.Returned? ==> r.value == error
      ensures r.Panicked? ==> r.message == show(value)
    {
      match this
      case Ok(v) => Panicked(show(v))
      case Err(e) => Returned(e)
    }

    function UnwrapOr(defaultValue: R): R {
      match this
      case Ok(v) => v
      case Err(_) => defaultValue
    }

    function UnwrapOrElse(getDefaultValue: E -> R): R {
      match this
      case Ok(v) => v
      case Err(e) => getDefaultValue(e)
    }

    function And<U>(res: Result<U, E>): Result<U, E> {
      match this
      case Ok(_) => res
      case Err(e) => Err(e)
    }

    function AndThen<U>(getRes: R -> Result<U, E>): Result<U, E> {
      match this
      case Ok(v) => getRes(v)
      case Err(e) => Err(e)
    }

    function Or<F>(res: Result<R, F>): Result<R, F> {
      match this
      case Ok(v) => Ok(v)
      case Err(_) => res
    }

    function OrElse<F>(getRes: E -> Result<R, F>): Result<R, F> {
      match this
      case Ok(v) => Ok(v)
      case Err(e) => getRes(e)
    }
  }
}
