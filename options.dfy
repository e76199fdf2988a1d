/** The optional values of the TypeScript sources (`T | null`, `T | undefined`, an optional field). */
module Options {

  datatype Option<+T> = None | Some(value: T) {

    /** The contained value, or `default` when absent (TypeScript's `??`). */
    function GetOr(default: T): T {
      match this
      case Some(v) => v
      case None => default
    }
  }
}
