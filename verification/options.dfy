/** Kotlin's nullable types (`T?`) as a value-carrying option. */
module Options {

  /** `None` stands for Kotlin's `null`, `Some(v)` for a present value `v`. */
  datatype Option<+T> = None | Some(value: T) {

    /** Kotlin's elvis operator `this ?: default`. */
    function OrElse(default: T): T {
      match this
      case Some(v) => v
      case None => default
    }
  }
}
