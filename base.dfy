/** Values shared by every part of the model: optional values, handler replies and token claims. */
module Base {

  /** An optional value. `None` stands for JavaScript's `undefined` or `null` where the code
      only tests truthiness; a member that tells the two apart says which one `None` means. */
  datatype Option<+T> = None | Some(value: T)

  /** What a route handler answers: a success status with its payload, or an error status with
      the messages of its JSON error body (most handlers send exactly one). */
  datatype Reply<+T> = Ok(status: nat, value: T) | Fail(status: nat, errors: seq<string>)

  /** The payload a token carries and that `authenticateToken` attaches as `req.user`. */
  datatype Claims = Claims(id: int, username: string, role: string)

  /** JavaScript truthiness of an optional string: `undefined`, `null` and `""` are falsy. */
  predicate Truthy(field: Option<string>)
  {
    field.Some? && field.value != ""
  }

  /** `field || ""` on an optional string: the string, or `""` when it is absent. */
  function OrEmpty(field: Option<string>): (s: string)
    ensures s == "" <==> !Truthy(field)
  {
    if field.Some? then field.value else ""
  }
}
