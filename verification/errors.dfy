/**
  The library's own error classes (src/errors.js) and the properties the
  protocol copies from any error object.
 */
module Errors {

  import opened Values

  /** The four subclasses of `Error` the library throws. */
  datatype ErrorClass = TimeoutError | TimeoutOverrunError | AbortError | MethodNotFoundError

  /** The properties of an error object that the protocol reads or writes. */
  datatype ErrorInfo = ErrorInfo(name: Json, message: Json, code: Json, details: Json, stack: Json)

  /** An error as a catch block or a rejection handler sees it. */
  datatype Fault =
    | Raised(cls: ErrorClass, message: string)   // `new Cls(message)` from this library
    | Foreign(info: ErrorInfo)                   // any other error object

  /**
    The properties of `new Cls(message)`. The classes only extend `Error`
    and never set `name`, so every one of them reads the inherited "Error";
    the stack text is captured by the runtime and is passed in.
   */
  function Describe(cls: ErrorClass, message: string, stack: Json): ErrorInfo
  {
    ErrorInfo(Str("Error"), Str(message), Undefined, Undefined, stack)
  }

}
