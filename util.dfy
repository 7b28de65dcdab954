/** Small wrappers shared by every module: an optional value (a Python value
    that may be None or a dictionary key that may be missing) and the outcome
    of a call that may raise (Err carries the exception's text, `str(e)`). */
module Util {

  datatype Option<T> = None | Some(value: T) {
    /** The value, or `default` when there is none (Python's `d.get(k, default)`). */
    function GetOr(default: T): T {
      if Some? then value else default
    }
  }

  datatype Result<T> = Ok(value: T) | Err(msg: string)

  /** Python truthiness of an optional string: present and non-empty. */
  predicate Truthy(s: Option<string>) {
    s.Some? && s.value != ""
  }
}
