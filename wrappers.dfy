/** Option and Result, the two failure-carrying shapes the rest of the model uses. */
module Wrappers {

  /** `None` stands for JavaScript's `undefined`/`null` where a value may be absent. */
  datatype Option<+T> = None | Some(value: T)

  /** `Failure` carries the message of an exception or an error object. */
  datatype Result<+T, +E> = Success(value: T) | Failure(error: E)
}

/** What a Next.js route handler hands back: a 200 JSON body, or a status with an `error` string. */
module Http {

  datatype Response<+B> = Ok(body: B) | Error(status: nat, message: string)

  /** Status used for every failure of the AI, the parser or the store. */
  const InternalServerError: nat := 500
  const BadRequest: nat := 400
  const NotFound: nat := 404
}
