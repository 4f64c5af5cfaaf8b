/** The optional value used for JavaScript's `undefined` results, and the
    outcome of reading one `localStorage` key and parsing it as JSON. */
module Wrappers {
  datatype Option<+T> = None | Some(value: T)

  /** What `JSON.parse(localStorage.getItem(key))` yields: nothing stored
      (or the empty string), a parsed value, or text that does not parse. */
  datatype Stored<+T> = Missing | Parsed(value: T) | Malformed
}
