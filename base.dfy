/** Shared vocabulary of the job board: optional values, identifiers,
    the identity a session token carries, and the shape of an HTTP reply. */
module Base {

  datatype Option<T> = None | Some(value: T)

  /** Database identifiers are opaque; only equality and freshness matter. */
  type UserId = nat
  type JobId = nat

  /** The payload of a session token: the user's id and role. */
  datatype Claims = Claims(id: UserId, role: string)

  /** What a handler sends: a status code with the JSON value on success,
      or a status code with the `msg` field on failure. */
  datatype Reply<T> = Success(code: nat, value: T) | Failure(code: nat, msg: string)
}
