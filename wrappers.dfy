/** Value wrappers shared by every module of the model: an optional value
    (JavaScript's `null`/`undefined`) and the two ways an outside call is
    modelled here, as the result of a promise or as a `{ data, error }` reply. */
module Wrappers {

  /** `null` / `undefined` versus a present value. */
  datatype Option<+T> = None | Some(value: T)

  /** The outcome of awaiting a call into code outside this model
      (AsyncStorage, a database insert, the image picker): the promise either
      resolves with a value or rejects. */
  datatype Async<+T> = Resolves(value: T) | Throws

  /** The outcome of a call on the authentication client that answers with a
      `{ data, error }` object: the reply carries data, or carries a non-null
      `error` field, or the call itself throws. */
  datatype Reply<+T> = Data(value: T) | ErrorField | Exception

  /** JavaScript truthiness of an optional string: `null`, `undefined` and
      `""` are falsy. */
  predicate TruthyString(s: Option<string>)
  {
    s.Some? && s.value != ""
  }
}
