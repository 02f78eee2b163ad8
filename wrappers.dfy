/** Option and Result: JavaScript's `undefined` results and rejected promises. */
module Wrappers {

  /** `None` stands for a JavaScript `undefined` (or `null`) result. */
  datatype Option<+T> = None | Some(value: T)

  /** A promise that resolves with `value` or rejects with `error`. */
  datatype Result<+T, +E> = Ok(value: T) | Fail(error: E)

  function Max(a: int, b: int): int { if a < b then b else a }

  function Min(a: int, b: int): int { if a < b then a else b }
}
