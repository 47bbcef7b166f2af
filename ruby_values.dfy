/** The Ruby values that appear in an options hash, as far as the options object looks at them. */
module RubyValues {

  datatype Option<+T> = None | Some(value: T)

  /** nil, true/false, a string, or a nested hash whose symbol keys are written as their names. */
  datatype Value = Nil | Bool(b: bool) | Str(s: string) | Hash(entries: map<string, Value>)

  /** An options hash such as `{ layout: "horizontal", label: { hide: true } }`. */
  type Fragment = map<string, Value>

  /** Ruby truthiness: every value except `nil` and `false` counts as true. */
  predicate Truthy(v: Value) {
    v != Nil && v != Bool(false)
  }
}
