/** The optional-value datatype used for TypeScript's optional fields (`parentId?`, `remarks?`, ...). */
module Wrappers {

  datatype Option<+T> = None | Some(value: T) {

    /** The carried value, or `default` when there is none (the `??` of the source). */
    function GetOr(default: T): T {
      match this
      case Some(v) => v
      case None => default
    }
  }
}
