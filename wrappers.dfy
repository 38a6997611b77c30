/** Option and Result, the two failure-carrying shapes the model uses.
    A `Result` fails with the text of the JavaScript `Error` it stands for. */
module Wrappers {

  datatype Option<+T> = None | Some(value: T) {

    /** The value, or `default` when there is none. */
    function GetOr(default: T): T {
      match this
      case Some(v) => v
      case None => default
    }
  }

  datatype Result<+T> = Ok(value: T) | Err(message: string) {

    /** The value as an Option, dropping the error text. */
    function ToOption(): Option<T> {
      match this
      case Ok(v) => Some(v)
      case Err(_) => None
    }
  }
}
