/** An optional value, used where the C++ code returns a `std::optional`. */
module Options {

  datatype Option<+T> = None | Some(value: T)
}
