/** The optional-value datatype used throughout the model: a field of a
    stored document or of the dialogue draft is either present or absent,
    and a parser either yields a value or fails. */
module Wrappers {

  datatype Option<+T> = None | Some(value: T) {

    /** The encapsulated value, or `default` when absent (Python's `dict.get(key, default)`). */
    function GetOr(default: T): T
    {
      match this
      case Some(v) => v
      case None => default
    }
  }
}
