/** Results of the parser: the source's own error type, and the ways the Rust
    code aborts (panics) instead of returning an error. */
module Outcomes {

  datatype Option<+T> = None | Some(value: T)

  /** `SyntaxError` of src/main.rs. */
  datatype SyntaxError =
    | NoEnd
    | UnexpectedChar(pos: nat)
    | Unknown(reason: string, pos: nat)

  /** A run-time abort of the Rust program. None of these is an error value the
      source returns; each one is a panic that ends the process. */
  datatype Panic =
    | IndexOutOfBounds(index: nat, length: nat)  // `chars[i]` with `i >= chars.len()`
    | SliceOutOfOrder(start: nat, end: nat)      // `input[start..end]` with `start > end`
    | UnwrapOnEmpty                              // `last().unwrap()` on an empty stack
    | StateStillOpen(open: nat)                  // the first final `assert_eq!`
    | RootCount(count: nat)                      // the second final `assert_eq!`

  /** `Result<T, SyntaxError>`, extended with the panics. */
  datatype Outcome<+T> =
    | Ok(value: T)
    | Err(error: SyntaxError)
    | Crash(panic: Panic)
}
