/** The argument type `T | null | undefined` of the nullable adapters. */
module Nullable {

  /** A value of type `T`, or one of the host's two absence markers. */
  datatype Nullable<+T> = Null | Undefined | Present(value: T) {

    /** The adapters' test `value === null || value === undefined`. */
    predicate IsAbsent() {
      Null? || Undefined?
    }
  }

  /** Host values the adapters are exercised with: the falsy ones (`0`,
      `false`, `""`, `NaN`), which a truthiness test would drop, and truthy
      ones such as `{}` and `[]`. */
  datatype HostValue = Number(n: int) | NaN | Boolean(b: bool) | Text(s: string) | EmptyObject | EmptyArray

  /** The values the host treats as false in a condition. */
  predicate Falsy(v: HostValue) {
    match v
    case Number(n) => n == 0
    case NaN => true
    case Boolean(b) => !b
    case Text(s) => s == ""
    case EmptyObject => false
    case EmptyArray => false
  }
}
