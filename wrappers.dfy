/** An optional value, standing for the `null` / `undefined` results and
    fields of the rendering core. */
module Wrappers {

  datatype Option<+T> = None | Some(value: T)
}
