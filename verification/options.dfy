/** The optional value the model uses wherever the front-end writes `T | null`
    or an optional property. */
module Options {

  datatype Option<+T> = None | Some(value: T)
}
