/** The optional value used wherever the resolver works with Python's `None`. */
module Optional {

  /** `None` stands for Python's `None`; `Some(v)` for a present value `v`. */
  datatype Option<+T> = None | Some(value: T)
}
