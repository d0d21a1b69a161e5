/** The nullable values of the system (JavaScript `null`/`undefined`, Python `None`). */
module Optional {

  datatype Option<+T> = None | Some(value: T) {

    /** The held value, or `default` when there is none. */
    function GetOr(default: T): T {
      match this
      case Some(v) => v
      case None => default
    }
  }

  /** Truthiness of an optional text, alike in JavaScript and Python: `null`/`None` and `""` are false. */
  predicate Truthy(s: Option<string>) {
    s.Some? && s.value != ""
  }
}
