/** The optional value used where the scripts fall back on `undefined`
    or `null` (a failed `find`, a regular expression that did not match). */
module Options {

  datatype Option<T> = None | Some(value: T)
}
