/** Small wrappers shared by every module of the model. */
module Common {

  /** A value that may be absent (JavaScript `null` / `undefined`). */
  datatype Option<+T> = None | Some(value: T)

  /** The outcome of a deserialiser that may throw: the value it produced, or an uncaught exception. */
  datatype Load<+T> = Loaded(value: T) | Threw

  /** JavaScript truthiness of a possibly-null string: present and non-empty. */
  predicate Truthy(s: Option<string>)
  {
    s.Some? && s.value != ""
  }

  /** Entry ids: the millisecond timestamp the editor read from the clock when it created the entry. */
  type Id = int
}
