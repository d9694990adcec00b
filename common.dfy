/** Small value types shared by the two admin dashboard components. */
module Common {

  /** A value that may be absent: `undefined`/`null` in the dashboard's records. */
  datatype Option<+T> = None | Some(value: T) {
    function GetOr(default: T): T {
      match this
      case Some(v) => v
      case None => default
    }
  }

  /** The outcome of a backend call: the decoded body, or the error message that was raised. */
  datatype Result<+T> = Ok(value: T) | Err(message: string)

  /** The two HTTP methods the save handlers choose between. */
  datatype HttpMethod = Post | Put
}
