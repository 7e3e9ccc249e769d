/** Python's runtime vocabulary that the modelled code relies on: optional
    values, the exceptions it raises or catches, and an outcome that is
    either a returned value or a raised exception. */
module Py {

  import Text

  datatype Option<+T> = None | Some(value: T)

  /** The key of a failed subscript: a dict member name, or an integer
      index used on a dict. */
  datatype Subscript = Name(name: string) | Position(index: nat)

  /** The exceptions the modelled code can raise. `Sdk` stands for an
      exception raised inside a vendor SDK or an HTTP library; its message
      is whatever that library chose. */
  datatype Error =
    | KeyError(key: Subscript)
    | IndexError
    | TypeError
    | AttributeError
    | ValueError(message: string)
    | JsonDecodeError
    | UnboundLocalError
    | FileNotFoundError(message: string)
    | Sdk(message: string)

  /** A call either returns a value or raises an exception. */
  datatype Result<+T> = Ok(value: T) | Err(error: Error) {
    predicate IsFailure() {
      Err?
    }

    function PropagateFailure<U>(): Result<U>
      requires Err?
    {
      Err(error)
    }

    function Extract(): T
      requires Ok?
    {
      value
    }
  }

  /** `repr(k)`: an integer in decimal; a string in single quotes, or in
      double quotes when it holds a single quote and no double quote. */
  function KeyRepr(k: Subscript): string {
    match k
    case Position(i) => Text.NatToString(i)
    case Name(s) =>
      if '\'' in s && '"' !in s then "\"" + s + "\"" else "'" + s + "'"
  }

  /** `str(e)` for the exceptions above. For a KeyError Python prints the
      key's repr. */
  function ErrorText(e: Error): string {
    match e
    case KeyError(k) => KeyRepr(k)
    case IndexError => "list index out of range"
    case TypeError => "unsupported operand type"
    case AttributeError => "object has no attribute"
    case ValueError(m) => m
    case JsonDecodeError => "Expecting value"
    case UnboundLocalError => "cannot access local variable 'response'"
    case FileNotFoundError(m) => m
    case Sdk(m) => m
  }

  /** `str(last_error)` where `last_error` starts out as None. */
  function LastErrorText(last: Option<Error>): string {
    match last
    case None => "None"
    case Some(e) => ErrorText(e)
  }
}
