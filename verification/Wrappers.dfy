/** What several modules use: the optional value that stands for Python's `Optional[T]`, and `max`. */
module Wrappers {
  datatype Option<+T> = None | Some(value: T)

  function GetOr<T>(o: Option<T>, default: T): T { if o.Some? then o.value else default }

  function Max(a: int, b: int): int { if a >= b then a else b }
}
