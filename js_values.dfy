/** JavaScript values the page works with: nullable strings, their truthiness,
    and what a `catch` clause can receive. */
module Js {

  /** `T | null`. */
  datatype Option<T> = None | Some(value: T)

  /** JavaScript truthiness of a `string | null`: null and "" are falsy,
      every other string is truthy. */
  predicate Truthy(s: Option<string>) {
    s.Some? && s.value != ""
  }

  /** A value caught by `catch (err)`: an instance of `Error` (carrying its
      `message`), or any other thrown value. */
  datatype Thrown = ErrorInstance(message: string) | OtherValue
}
