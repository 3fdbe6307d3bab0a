/** The optional value that stands for `nullptr` and `std::nullopt` throughout the model. */
module Options {
  datatype Option<+T> = None | Some(value: T)
}
