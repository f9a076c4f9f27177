/** The optional-value wrapper used throughout the model for TypeScript's
    `T | undefined` fields and for lookups that may find nothing. */
module Optional {

  datatype Option<T> = None | Some(value: T) {

    /** The `??` operator: the value if present, otherwise the default. */
    function GetOr(default: T): (r: T)
      ensures Some? ==> r == value
      ensures None? ==> r == default
    {
      match this
      case Some(v) => v
      case None => default
    }
  }
}
