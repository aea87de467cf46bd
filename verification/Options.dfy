/** The one optional-value type the models share: a JavaScript `null` or a Rust `None`. */
module Options {
  datatype Option<+T> = None | Some(value: T) {
    /** The source's `this ?? other`. */
    function OrElse(other: Option<T>): Option<T> {
      if Some? then this else other
    }
  }
}
