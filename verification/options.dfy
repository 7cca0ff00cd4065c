/** The optional value used throughout the model: `None` stands for a
    JavaScript `null` or `undefined`, and for the NaN that `parseInt` gives
    when there are no digits. */
module Options {

  datatype Option<+T> = None | Some(value: T)
}
