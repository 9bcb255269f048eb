/** Python's `None` and Ruby's `nil` for lookups that may fail. */
module Wrappers {

  datatype Option<+T> = None | Some(value: T)

  /** Python's `if not subdir` fails on a looked-up string: there is an entry
      and it is not "". */
  predicate Present(entry: Option<string>) {
    entry.Some? && entry.value != ""
  }
}
