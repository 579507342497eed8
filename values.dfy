/** Values held in a Channels connection scope, and the outcomes of the
    wrapper's operations on it. */
module Values {

  /** A header as the server delivers it: a (name, value) pair of byte
      strings, held here as their UTF-8 decodings. */
  type Header = (string, string)

  /** A value stored in a scope mapping. */
  datatype Value =
    | Str(s: string)                     // a text string
    | Bytes(text: string)                // a byte string, held as its UTF-8 decoding
    | HeaderList(pairs: seq<Header>)     // a list of header pairs
    | Dict(entries: map<string, Value>)  // a nested mapping
    | ScopeRef                           // the wrapped scope mapping itself: an alias, not a copy

  /** The exceptions the wrapper can raise. */
  datatype Error =
    | AttributeError
    | KeyError(key: string)
    | WrongType                          // a scope entry whose type the code cannot use
    | DisallowedHost(message: string)

  datatype Option<+T> = None | Some(value: T)

  /** The result of an operation that either returns a value or raises. */
  datatype Result<+T> = Ok(value: T) | Err(error: Error) {
    predicate IsFailure() { Err? }
    function PropagateFailure<U>(): Result<U> requires Err? { Err(error) }
    function Extract(): T requires Ok? { value }
  }

  /** The result of an operation that returns nothing or raises. */
  datatype Outcome = Pass | Fail(error: Error)
}
