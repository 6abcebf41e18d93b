/** Result wrappers shared by every module of the model. */
module Common {

  /** A value that may be absent: an optional argument, a nullable field. */
  datatype Option<+T> = None | Some(value: T) {
    /** The value, or `default` when absent (a JavaScript default parameter). */
    function GetOr(default: T): T {
      match this
      case Some(v) => v
      case None => default
    }
  }

  /**
   * What an awaited call into code outside the model produced: a value, or a
   * rejection carrying the error that the caller rethrows or reports.
   */
  datatype Outcome<+T> = Ok(value: T) | Err(error: string)

  /**
   * A notification put on screen: a `toast({title, description, variant})`
   * of the UI kit, or a snackbar `enqueueSnackbar(message, {variant})`.
   */
  datatype Notice =
    | Toast(title: string, description: string, variant: Option<string>)
    | Snackbar(message: string, kind: string)
}
