/** Shared value types: optional values, results of an operation that can
    throw, and the shape of the request-scoped translator `request.t`. */
module Base {

  datatype Option<+T> = None | Some(value: T)

  /** A handler either completes with a value or throws an error; a thrown
      error travels to the error-handling middleware. */
  datatype Result<+T, +E> = Ok(value: T) | Err(error: E)

  /** Interpolation parameters passed to the translator, e.g. `{ minlength: 8 }`. */
  datatype Param = PStr(s: string) | PNum(n: int)

  /** `request.t(key, params)`: the localisation catalogue is not part of
      this model, so the translator is an arbitrary function of key and
      parameters. */
  type Translator = (string, map<string, Param>) -> string

  type Id = string
}
