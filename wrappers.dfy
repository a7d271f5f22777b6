/** Option and Result, and the Python exceptions the library raises, as values. */
module Wrappers {

  datatype Option<+T> = None | Some(value: T)

  /** The Python exception class a failing operation raises. */
  datatype ErrorKind =
    | Exception          // a bare `raise Exception(...)`
    | KeyError
    | TypeError
    | ValueError
    | IndexError
    | AttributeError
    | SizeOutOfBounds    // the library's own error classes
    | ClientNotFound

  datatype Error = Error(kind: ErrorKind, message: string)

  datatype Result<+T> = Ok(value: T) | Err(error: Error)
  {
    predicate IsFailure()
    {
      Err?
    }

    function PropagateFailure<U>(): Result<U>
      requires Err?
    {
      Err(error)
    }

    function Extract(): T
      requires Ok?
    {
      value
    }
  }

  /** `raise Exception(message)` */
  function Raise<T>(message: string): Result<T>
  {
    Err(Error(Exception, message))
  }

  /** What `CurrentClient.get_client()` raises when no client is current. */
  const NO_CLIENT: Error := Error(ClientNotFound, "Client instance wasn't found")

  function Fail<T>(kind: ErrorKind): Result<T>
  {
    Err(Error(kind, ""))
  }

  /** `make_optional`: the outcome of a call, with every exception turned into None. */
  function ToOption<T>(r: Result<T>): (o: Option<T>)
    ensures o.Some? <==> r.Ok?
    ensures o.Some? ==> o.value == r.value
  {
    match r
    case Ok(v) => Some(v)
    case Err(_) => None
  }
}
