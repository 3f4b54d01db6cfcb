/** Small value types shared by the store and the page. */
module Wrappers {

  /** A value that may be absent: a nullable or optional field. */
  datatype Option<T> = None | Some(value: T) {
    function GetOr(default: T): T {
      if Some? then value else default
    }
  }

  /**
   * What a local-storage slot yields at start-up: nothing, a document that
   * does not parse, or a parsed document.
   */
  datatype Saved<T> = Missing | Corrupt | Valid(value: T)
}
