/** Optional values, results and the exceptions the modelled code raises. */
module Wrappers {

  /** Python's `Optional[T]`: `None` or a value. */
  datatype Option<T> = None | Some(value: T)

  /** The exceptions that reach a caller of the reconciliation core. */
  datatype Error =
    | NoResultFound          // scalar_one() over zero rows
    | MultipleResultsFound   // scalar_one() over two or more rows
    | AttributeError         // an attribute read on None
    | NotImplementedError    // mailing_from_raw_tax on a shape it does not know
    | RuntimeError           // mailing_from_raw_general on a shape it does not know

  /** A returned value, or the exception raised instead. */
  datatype Result<T> = Ok(value: T) | Err(error: Error)
  {
    function ToOption(): Option<T>
    {
      match this
      case Ok(v) => Some(v)
      case Err(_) => None
    }
  }
}
