/** The optional value that the C++ sources write as `std::optional`. */
module Options {
  datatype Option<+T> = None | Some(value: T)
}
