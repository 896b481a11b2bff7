/** The conventional optional value, standing for the source's nullable fields
    and, as the result of an operation, for "the operation panicked" (`None`). */
module Options {

  datatype Option<+T> = None | Some(value: T)
}
