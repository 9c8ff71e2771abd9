/** Wrappers shared by every module of the model. */
module Common {

  datatype Option<+T> = None | Some(value: T)

  /** A rejected promise carries the error's message. */
  datatype Result<+T> = Ok(value: T) | Err(message: string)

  /** What a route handler answers: a JSON body with status 200, or an error status and its `error` text. */
  datatype Response<+T> = Reply(body: T) | Refuse(status: nat, error: string)

  /** JavaScript truthiness of a string that may be missing: present and not empty. */
  predicate Truthy(s: Option<string>)
  {
    s.Some? && s.value != ""
  }
}
