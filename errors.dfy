/** The exceptions the indexing scripts and the search endpoint raise or let
    through, and the Result type that carries one of them in place of raising. */
module Errors {

  /** The calls the repository makes on the search engine. Whether one of them
      fails (network down, engine error) is decided by the environment. */
  datatype Op = OpExists | OpCreate | OpDelete | OpBulk | OpPutPipeline

  datatype Error =
    | KeyError(key: string)               // `d[key]` on a dict that lacks `key`
    | TypeError(what: string)             // subscripting or iterating a value of the wrong kind
    | AttributeError(name: string)        // `.get` on a value that is not a dict
    | EncodeFailure                       // the embedding model refused its input
    | EngineFailure(op: Op)               // a transport or engine error on one call
    | IndexAlreadyExists(index: string)   // creating an index that is there
    | IndexNotFound(index: string)        // deleting an absent index without ignore_unavailable
    | NoRequests                          // a bulk call with an empty body
    | MalformedBulk                       // a bulk body that does not alternate action and source
    | ConnectionError(context: string, cause: Error)

  datatype Option<+T> = None | Some(value: T)

  datatype Result<+T> = Ok(value: T) | Err(error: Error) {
    predicate IsFailure() { Err? }
    function PropagateFailure<U>(): Result<U> requires Err? { Err(error) }
    function Extract(): T requires Ok? { value }
  }

  /** `except Exception as e: raise ConnectionError(f"{context}: {e}")`. */
  function Wrap<T>(context: string, r: Result<T>): Result<T>
  {
    match r
    case Ok(v) => Ok(v)
    case Err(e) => Err(ConnectionError(context, e))
  }
}
