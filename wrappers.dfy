/** An optional value: a TypeScript optional field (`x?: T`), a JSON key that
    may be absent, or a nullable variable. */
module Wrappers {

  datatype Option<+T> = None | Some(value: T) {

    /** `o ?? d`: the value when present, otherwise the default. */
    function GetOr(default: T): T {
      match this
      case Some(v) => v
      case None => default
    }
  }
}
