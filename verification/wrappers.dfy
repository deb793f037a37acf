/** An optional value: the `undefined`/`null` a JavaScript expression may
    produce, or a badge that is not rendered. */
module Wrappers {
  datatype Option<T> = None | Some(value: T)
}
