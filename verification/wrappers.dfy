/** The optional-value datatype used for every field a raw catalog record may lack. */
module Wrappers {

  /** `None` stands for a key that is absent from the record; `Some(v)` for a key holding `v`. */
  datatype Option<+T> = None | Some(value: T) {

    /** The value if present, else `default`: the model of a dictionary lookup `d.get(key, default)`. */
    function GetOr(default: T): T {
      match this
      case Some(v) => v
      case None => default
    }
  }
}
