/** Small shared datatypes: an optional value, and the value a JavaScript `throw` carries. */
module Wrappers {

  /** A value that may be absent (JavaScript `undefined`/`null` where the source allows it). */
  datatype Option<+T> = None | Some(value: T)

  /** What a `catch (e)` receives: an `Error` instance with its message, any other thrown object,
      which may or may not carry a string `message` property, or a thrown `null` or `undefined`,
      which has no properties at all (reading one of them throws). */
  datatype Thrown =
    | ErrorInstance(message: string)
    | OtherThrown(messageProperty: Option<string>)
    | Nullish

  /** The outcome of calling code that may throw. */
  datatype Outcome<+T> = Returned(value: T) | Threw(thrown: Thrown)
}
