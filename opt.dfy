/** A value that may be absent: the model's rendering of TypeScript's `T | null`. */
module Opt {

  datatype Option<+T> = None | Some(value: T) {

    /** The value when present, `default` otherwise (the `??` operator). */
    function GetOr(default: T): T {
      match this
      case Some(v) => v
      case None => default
    }
  }
}
