/** The optional-value wrapper used for every path of a Kubernetes object that may be absent. */
module Wrappers {

  /** `None` is an absent value (JavaScript `undefined`, or `null` where a field of the
      normalised record is documented as `null`). */
  datatype Option<+T> = None | Some(value: T) {

    /** The value if present, otherwise the given fallback. */
    function GetOr(default: T): T {
      match this
      case Some(v) => v
      case None => default
    }
  }
}
