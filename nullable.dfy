/** Values that may be absent: JavaScript's null/undefined and Python's None. */
module Nullable {

  datatype Option<+T> = None | Some(value: T)

  /** JavaScript truthiness of a value that is either a string or null:
      null and the empty string are falsy, every other string is truthy. */
  predicate Truthy(o: Option<string>)
  {
    o.Some? && o.value != ""
  }
}
