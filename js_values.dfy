/**
 * Values as the TypeScript sources see them: `null`/`undefined` become `None`,
 * and the truthiness test `if (x)` on an optional string becomes `Truthy`.
 */
module JsValues {

  datatype Option<T> = None | Some(value: T)

  /** `!!x` for a string that may be null or undefined: present and non-empty. */
  predicate Truthy(s: Option<string>) {
    s.Some? && s.value != ""
  }
}
