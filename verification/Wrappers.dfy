/** Optional values and results, used where the TypeScript code returns `undefined` or throws. */
module Wrappers {

  datatype Option<+T> = None | Some(value: T)

  datatype Result<+T, +E> = Ok(value: T) | Err(error: E)

  /** The largest integer for which `Number.isSafeInteger` holds. */
  const MAX_SAFE: nat := 9007199254740991

  function Min(a: int, b: int): int {
    if a <= b then a else b
  }

  function FirstN<T>(s: seq<T>, n: nat): seq<T> {
    if |s| <= n then s else s[..n]
  }
}
