/** Values of the PHP runtime that the document builder relies on. */
module PhpValues {

  /** A parameter that may be `null` (absent) or carry a value. */
  datatype Option<T> = None | Some(value: T)

  /** PHP truthiness of a string: exactly "" and "0" are falsy. */
  predicate Truthy(s: string) {
    s != "" && s != "0"
  }

  /** PHP truthiness of a possibly-null string: `null` is falsy too. */
  predicate TruthyOption(o: Option<string>) {
    o.Some? && Truthy(o.value)
  }
}
