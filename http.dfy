/** What an Express handler or middleware answers. */
module Http {

  datatype Method = GET | POST | PUT | DELETE | PATCH

  /** A middleware either calls `next()` or ends the request with a status and an error text. */
  datatype Verdict = Next | Reject(status: nat, error: string)

  /** A handler's response: a status with a JSON body, or a status with `{ error }`. */
  datatype Reply<T> = Ok(status: nat, body: T) | Err(status: nat, error: string)
}
