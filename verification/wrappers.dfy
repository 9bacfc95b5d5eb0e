/** An optional value: the model's stand-in for the `null` that the editor's
    state fields hold before an image is loaded or a size is known. */
module Wrappers {

  datatype Option<+T> = None | Some(value: T)
}
