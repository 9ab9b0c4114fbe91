/** Error values for the exceptions the generator and the queue can raise,
    and a Result type carrying either a value or one of them. */
module Outcomes {

  /** The Python exceptions the modelled bookkeeping can raise. */
  datatype Error =
    | EmptyRange       // np.random.randint(0, 0): low >= high (ValueError)
    | EmptyReduction   // np.min over an empty box array (ValueError)
    | DivisionByZero   // a zero image height or a zero batch size (ZeroDivisionError)
    | EmptyStack       // np.stack of an empty list (ValueError)
    | EmptyResize      // cv2.resize to a size with a zero side (cv2.error)

  datatype Result<+T> = Ok(value: T) | Err(error: Error)

  datatype Option<+T> = None | Some(value: T)
}
