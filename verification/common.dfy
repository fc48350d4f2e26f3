/** Shared vocabulary of the model: optional values, results, Go-style error
    returns, bytes, and the values that Go's `flag` package hands back.

    Go functions in the plugin either return `error`, return `(T, error)`, or
    crash with a runtime panic (a nil pointer dereference). `Outcome` models an
    `error` that is nil (`Pass`) or not (`Fail`); `Result` models a pointer
    result that is nil exactly when the error is not; `Exit` models a
    `(T, error)` pair together with the possibility of a panic.
 */
module Common {

  datatype Option<+T> = None | Some(value: T) {
    /** The value held, or the given default. */
    function GetOr(default: T): T {
      match this
      case Some(v) => v
      case None => default
    }
  }

  datatype Result<+T> = Ok(value: T) | Err(msg: string) {
    predicate IsFailure() {
      Err?
    }

    function PropagateFailure<U>(): Result<U>
      requires Err?
    {
      Err(msg)
    }

    function Extract(): T
      requires Ok?
    {
      value
    }
  }

  /** A Go `error` value: nil, or an error with its message. */
  datatype Outcome = Pass | Fail(msg: string)

  /** How a Go function returning `(T, error)` ends: it returns both values, or
      it panics before returning. */
  datatype Exit<+T> = Return(value: T, err: Option<string>) | Panic(reason: string)

  /** Go's `[]byte` element. */
  newtype byte = b: int | 0 <= b < 256

  /** A flag value reported by Go's `flag.FlagSet` after `Parse`. */
  datatype FlagValue = BoolValue(b: bool) | StringValue(s: string) | IntValue(i: int)

  /** What `flag.FlagSet.Parse` makes of the words it is given: the flags that
      were set explicitly, by name, or the parse error. The real package is not
      part of this model, so every command receives it as a parameter. */
  type FlagParser = seq<string> -> Result<map<string, FlagValue>>

  /** The value of the bool flag `name`: the one set explicitly, or the default
      it was defined with. */
  function BoolFlag(given: map<string, FlagValue>, name: string, default: bool): (b: bool)
    ensures name in given && given[name].BoolValue? ==> b == given[name].b
    ensures name !in given ==> b == default
  {
    if name in given && given[name].BoolValue? then given[name].b else default
  }

  /** The value of the string flag `name`: the one set explicitly, or its default. */
  function StringFlag(given: map<string, FlagValue>, name: string, default: string): (s: string)
    ensures name in given && given[name].StringValue? ==> s == given[name].s
    ensures name !in given ==> s == default
  {
    if name in given && given[name].StringValue? then given[name].s else default
  }

  /** The value of the int flag `name`: the one set explicitly, or its default. */
  function IntFlag(given: map<string, FlagValue>, name: string, default: int): (i: int)
    ensures name in given && given[name].IntValue? ==> i == given[name].i
    ensures name !in given ==> i == default
  {
    if name in given && given[name].IntValue? then given[name].i else default
  }
}
