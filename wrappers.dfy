/** Optional values, and the JavaScript notion of a "truthy" string. */
module Wrappers {

  /** `None` stands for a JavaScript `undefined` property or a `null` result. */
  datatype Option<+T> = None | Some(value: T)

  /** A string-valued property is truthy in JavaScript when it is defined and
      not the empty string; `if (x)` and `a && b` test exactly this. */
  predicate Truthy(s: Option<string>)
  {
    s.Some? && s.value != ""
  }
}
