/** Failure-carrying values shared by every module of the relay. */
module Wrappers {

  /** An optional value; `None` also stands for Go's `nil` error. */
  datatype Option<+T> = None | Some(value: T)

  /** A Go `(value, error)` pair: exactly one of the two is present.
      The error is kept as the text that `err.Error()` would give. */
  datatype Result<+T> = Ok(value: T) | Err(msg: string)

  /** A Go call that returns only an `error`: `Failure` carries its text. */
  datatype Outcome = Success | Failure(msg: string)

  /** True when `s` starts with `prefix`: the shape of `fmt.Errorf("prefix%v", err)`. */
  predicate HasPrefix(s: string, prefix: string)
  {
    |prefix| <= |s| && s[..|prefix|] == prefix
  }
}
