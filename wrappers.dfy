/** Small failure-carrying datatypes shared by the whole model. */
module Wrappers {

  /** Python's `None` against a present value. */
  datatype Option<+T> = None | Some(value: T)

  /** The exceptions that the client's decoding and result handling can raise. */
  datatype PyError =
    | TypeError            // `in` or `[]` applied to a value that does not support it
    | AttributeError       // `.get(...)` or `.items()` called on a value that is not a dict
    | ValueError(text: string)  // a body that holds no decodable JSON, carrying the text at fault

  /** The outcome of a Python call: it either returns a value or raises. */
  datatype Outcome<+T> = Returns(value: T) | Raises(error: PyError) {

    /** What a caller that catches every exception and returns `None` instead sees. */
    function ToOption(): (r: Option<T>)
      ensures r.Some? <==> Returns?
    {
      match this
      case Returns(v) => Some(v)
      case Raises(_) => None
    }
  }
}
