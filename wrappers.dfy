/** Small value wrappers shared by the model. */
module Wrappers {

  /** A value that may be missing: PHP's "not set" or null. */
  datatype Option<+T> = None | Some(value: T) {

    /** The wrapped value if present, otherwise `prev`: what a setter leaves behind. */
    function OrElse(prev: Option<T>): Option<T>
    {
      if Some? then this else prev
    }
  }
}
