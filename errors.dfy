/** The Python exceptions the modelled code can raise. Each is a value here:
    an operation that raises returns `Failure(e)` instead. */
module Errors {
  datatype Error =
    | KeyError(key: string)   // `d[key]` on a dict without that key
    | TypeError               // subscripting or `in`-testing a value of the wrong type
    | AttributeError          // `.items()` on a value that is not a dict
    | NameError(name: string) // a global name that the module never binds
    | ValueError(message: string)
    | OSError                 // a file that cannot be opened or written
}
