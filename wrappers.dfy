/** Optional values: a TypeScript property that may be absent (or `undefined`), and
    the JavaScript truthiness of the optional fields the models test. */
module Wrappers {

  datatype Option<+T> = None | Some(value: T)

  /** An optional string is truthy when present and not empty. */
  predicate Truthy(s: Option<string>)
  {
    s.Some? && s.value != ""
  }

  predicate IsTrue(b: Option<bool>)
  {
    b == Some(true)
  }

  /** An optional number is truthy when present and not zero. */
  predicate NonZero(n: Option<int>)
  {
    n.Some? && n.value != 0
  }

}
