/** A value that may be absent. `None` stands for JavaScript's `null` or
    `undefined` and for Python's `None` throughout the model. */
module Optional {

  datatype Option<+T> = None | Some(value: T)
}
