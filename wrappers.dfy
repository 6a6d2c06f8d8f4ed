/** Optional values: a JavaScript `undefined`/`null` or a Java `null` is `None`. */
module Wrappers {

  datatype Option<+T> = None | Some(value: T) {

    /** The value, or `default` when absent. */
    function GetOr(default: T): T {
      match this
      case Some(v) => v
      case None => default
    }
  }

  /** How an asynchronous call settled: `Threw` for a rejected promise or a thrown exception. */
  datatype Outcome<+T> = Threw | Returned(value: T)
}
