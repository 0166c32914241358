/** The wire vocabulary shared by the handlers: what a client sends (a JSON
    body, query parameters, an Authorization header), what a handler answers
    (a status code and a JSON payload), and the field-level issues the schema
    validation reports. */
module Http {

  datatype Option<+T> = None | Some(value: T)

  /** Instants, as the store stamps `createdAt`. */
  type Time = nat

  /** A JSON value as the handlers inspect it: either a string or anything
      else (number, boolean, null, array, object). */
  datatype Json = JString(s: string) | JOther

  /** What `c.req.json()` yields: text that is not JSON at all (the call
      throws), JSON that is not an object, or an object. */
  datatype RequestBody = Unparsable | NotAnObject | Object(fields: map<string, Json>)

  /** Why one field failed its schema. */
  datatype Problem =
    | Required               // the key is missing
    | ExpectedString         // the key holds a non-string value
    | ExpectedObject         // the body itself is not an object
    | TooShort(minimum: nat) // a string under its minimum length
    | InvalidEmail           // a string the email check refuses

  /** One validation issue; the path is `[]` for the body itself and
      `[key]` for a field. */
  datatype Issue = Issue(path: seq<string>, problem: Problem)

  /** The result of checking a body against a schema. */
  datatype Parsed<+T> = Ok(value: T) | Rejected(issues: seq<Issue>)

  /** The claims a token carries (`JWTPayload`). */
  datatype Claims = Claims(userId: string, email: string)

  /** A user as responses show it: never with the password hash. */
  datatype UserView = UserView(id: string, email: string, createdAt: Time)

  datatype PostView = PostView(id: string, title: string, content: string, authorId: string, createdAt: Time)

  datatype Pagination = Pagination(page: int, limit: int, total: nat, totalPages: int)

  /** The JSON object a handler answers with. */
  datatype Payload =
    | Failure(error: string)                                   // { error }
    | ValidationFailure(details: seq<Issue>)                   // { error: 'Validation error', details }
    | Session(message: string, token: string, user: UserView)  // { message, token, user }
    | PostPage(posts: seq<PostView>, pagination: Pagination)   // { posts, pagination }
    | PostFound(post: PostView)                                // { post }
    | PostSaved(message: string, post: PostView)               // { message, post }
    | Notice(message: string)                                  // { message }

  datatype Response = Response(status: int, payload: Payload)

  /** A handler's answer together with the store contents after it. */
  datatype Step<S> = Step(response: Response, state: S)

  /** The single opaque outcome for failures outside the handlers' own checks. */
  const InternalError := Response(500, Failure("Internal server error"))

  function ValidationError(issues: seq<Issue>): Response
  {
    Response(400, ValidationFailure(issues))
  }
}
