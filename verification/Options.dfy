/** An optional value, as `std::optional` and nullable pointers hold it. */
module Options {
  datatype Option<+T> = None | Some(value: T)
}
