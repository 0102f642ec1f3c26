/** The usual Some/None datatype, for values the widget may or may not hold. */
module Options {

  datatype Option<+T> = None | Some(value: T)
}
