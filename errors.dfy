/** The crate's error type (src/errors.rs): a kind with a message. The kinds
    are the ones the core raises: `Parse` (also what a failed integer parse
    converts to), `ParseDice` (a dice token that is no known dice) and
    `IncompatibleAction` (an action applied to rolls it is not defined for). */
module Errors {
  import Text

  datatype ErrorKind = Parse(msg: string) | ParseDice(msg: string) | IncompatibleAction(msg: string)

  datatype Error = Error(kind: ErrorKind)

  /** `Result<T, Error>`; `:-` plays the part of Rust's `?`. */
  datatype Result<+T> = Ok(value: T) | Err(error: Error) {
    predicate IsFailure() { Err? }

    function PropagateFailure<U>(): Result<U>
      requires Err?
    {
      Err(error)
    }

    function Extract(): T
      requires Ok?
    {
      value
    }
  }

  /** `impl From<ParseIntError> for Error`: a `Parse` error carrying the
      integer error's text. */
  function FromParseInt(k: Text.IntErrorKind): (e: Error)
    ensures e.kind.Parse?
  {
    Error(Parse(Text.IntErrorMessage(k)))
  }

  /** `s.parse::<u8>()?` */
  function U8FromStr(s: string): (r: Result<nat>)
    ensures r.Ok? ==> r.value <= Text.U8_MAX
    ensures r.Err? ==> r.error.kind.Parse?
  {
    match Text.ParseU8(s)
    case IntOk(v) => Ok(v)
    case IntErr(k) => Err(FromParseInt(k))
  }

  /** `s.parse::<u16>()?` */
  function U16FromStr(s: string): (r: Result<nat>)
    ensures r.Ok? ==> r.value <= Text.U16_MAX
    ensures r.Err? ==> r.error.kind.Parse?
  {
    match Text.ParseU16(s)
    case IntOk(v) => Ok(v)
    case IntErr(k) => Err(FromParseInt(k))
  }
}
