/** An optional value, standing for JavaScript's `undefined`/`null` where the source tests for them. */
module Maybe {
  datatype Option<+T> = None | Some(value: T)
}
