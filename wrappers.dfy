/** Optional values (TypeScript's `T | undefined`, `T | null` and optional properties),
    validation results, and the subsequence order on sequences. */
module Wrappers {

  datatype Option<+T> = None | Some(value: T) {

    /** The value, or `default` when absent. */
    function GetOr(default: T): T {
      match this
      case Some(v) => v
      case None => default
    }
  }

  /** A validation outcome: the parsed value, or what failed. */
  datatype Result<+R, +E> = Success(value: R) | Failure(error: E)

  /** `a` is `b` with some elements left out, the others in their order. */
  ghost predicate SubsequenceOf<T>(a: seq<T>, b: seq<T>)
    decreases |b|
  {
    if a == [] then true
    else if b == [] then false
    else (a[0] == b[0] && SubsequenceOf(a[1..], b[1..])) || SubsequenceOf(a, b[1..])
  }
}
