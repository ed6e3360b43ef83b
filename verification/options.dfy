/** Ruby's `nil`-or-a-value, for hash entries and fields that may be absent. */
module Options {

  datatype Option<+T> = None | Some(value: T)

}
