/** Option and Result values shared by every module of the model. */
module Wrappers {
  datatype Option<T> = None | Some(value: T)

  /** The outcome of an operation that the source can abort with an error message. */
  datatype Result<T> = Ok(value: T) | Err(msg: string)

  /** Three-way comparison, as Rust's `std::cmp::Ordering`. */
  datatype Ordering = Less | Equal | Greater
  {
    function Reverse(): Ordering
    {
      match this
      case Less => Greater
      case Equal => Equal
      case Greater => Less
    }
  }
}
