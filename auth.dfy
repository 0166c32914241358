/** The auth routes: signup, signin and signout, over the user table. The
    password hasher, the token service and the email format check come in
    through `Env`. */
module Auth {
  import opened Http
  import opened Schema
  import opened Services

  /** A row of the user table, keyed by email. */
  datatype User = User(id: string, email: string, passwordHash: string, createdAt: Time)

  type UserTable = map<string, User>

  /** Every row sits under its own email, and no two rows share an id
      (both are unique columns of the table). */
  ghost predicate WellKeyed(users: UserTable)
  {
    && (forall e :: e in users ==> users[e].email == e)
    && (forall e1, e2 :: e1 in users && e2 in users && e1 != e2 ==> users[e1].id != users[e2].id)
  }

  /** The user as a response shows it: id, email and creation time. */
  function Public(u: User): UserView
  {
    UserView(u.id, u.email, u.createdAt)
  }

  datatype Credentials = Credentials(email: string, password: string)

  const MinPasswordLength: nat := 6

  /** `signupSchema`: a well-formed email and a password of at least six characters. */
  function ParseSignup(body: RequestBody, isEmail: string -> bool): (r: Parsed<Credentials>)
    requires !body.Unparsable?
    ensures r.Ok? <==> && body.Object?
                       && HasString(body.fields, "email", 0) && isEmail(body.fields["email"].s)
                       && HasString(body.fields, "password", MinPasswordLength)
    ensures r.Ok? ==> r.value == Credentials(body.fields["email"].s, body.fields["password"].s)
    ensures r.Rejected? ==> |r.issues| > 0
  {
    match body
    case NotAnObject => Rejected(NotAnObjectIssues)
    case Object(fields) =>
      var issues := EmailString(fields, "email", isEmail) + RequiredString(fields, "password", MinPasswordLength);
      if issues == [] then Ok(Credentials(fields["email"].s, fields["password"].s)) else Rejected(issues)
  }

  /** `signinSchema`: a well-formed email and any string as password. */
  function ParseSignin(body: RequestBody, isEmail: string -> bool): (r: Parsed<Credentials>)
    requires !body.Unparsable?
    ensures r.Ok? <==> && body.Object?
                       && HasString(body.fields, "email", 0) && isEmail(body.fields["email"].s)
                       && HasString(body.fields, "password", 0)
    ensures r.Ok? ==> r.value == Credentials(body.fields["email"].s, body.fields["password"].s)
    ensures r.Rejected? ==> |r.issues| > 0
  {
    match body
    case NotAnObject => Rejected(NotAnObjectIssues)
    case Object(fields) =>
      var issues := EmailString(fields, "email", isEmail) + RequiredString(fields, "password", 0);
      if issues == [] then Ok(Credentials(fields["email"].s, fields["password"].s)) else Rejected(issues)
  }

  /** Some row already carries `id`; the table's unique id column refuses a second one. */
  predicate IdTaken(users: UserTable, id: string)
  {
    exists e :: e in users && users[e].id == id
  }

  const UserExists := Response(400, Failure("User already exists"))
  const InvalidCredentials := Response(401, Failure("Invalid credentials"))

  /** POST /auth/signup. `newId` is the id the store assigns, `salt` the
      hasher's randomness and `now` the creation time. The body is checked
      before the table is consulted, so a rejected body gets an answer that
      does not depend on the table. */
  function SignupStep(users: UserTable, body: RequestBody, env: Env, newId: string, salt: string, now: Time): (out: Step<UserTable>)
    ensures body.Unparsable? ==> out.response == InternalError
    ensures !body.Unparsable? && ParseSignup(body, env.isEmail).Rejected? ==>
      out.response == ValidationError(ParseSignup(body, env.isEmail).issues)
    ensures !body.Unparsable? && ParseSignup(body, env.isEmail).Ok? && body.fields["email"].s in users ==>
      out.response == UserExists
    ensures !body.Unparsable? && ParseSignup(body, env.isEmail).Ok? && body.fields["email"].s !in users && IdTaken(users, newId) ==>
      out.response == InternalError
    ensures out.response.status == 201 <==>
      !body.Unparsable? && ParseSignup(body, env.isEmail).Ok? && body.fields["email"].s !in users && !IdTaken(users, newId)
    ensures out.response.status != 201 ==> out.state == users
    ensures out.response.status == 201 ==>
      var email, password := body.fields["email"].s, body.fields["password"].s;
      && out.state == users[email := User(newId, email, env.hasher.hash(password, salt), now)]
      && out.response.payload == Session("User created successfully", env.tokens.issue(Claims(newId, email), now), UserView(newId, email, now))
  {
    if body.Unparsable? then Step(InternalError, users)
    else match ParseSignup(body, env.isEmail)
      case Rejected(issues) => Step(ValidationError(issues), users)
      case Ok(Credentials(email, password)) =>
        if email in users then Step(UserExists, users)
        else if IdTaken(users, newId) then Step(InternalError, users)
        else
          var user := User(newId, email, env.hasher.hash(password, salt), now);
          var token := env.tokens.issue(Claims(user.id, user.email), now);
          Step(Response(201, Session("User created successfully", token, Public(user))), users[email := user])
  }

  /** A signup keeps every row under its own email and the ids distinct. */
  lemma SignupKeepsTableWellKeyed(users: UserTable, body: RequestBody, env: Env, newId: string, salt: string, now: Time)
    requires WellKeyed(users)
    ensures WellKeyed(SignupStep(users, body, env, newId, salt, now).state)
  {
    var out := SignupStep(users, body, env, newId, salt, now);
    if out.response.status == 201 {
      var email := body.fields["email"].s;
      forall e1, e2 | e1 in out.state && e2 in out.state && e1 != e2
        ensures out.state[e1].id != out.state[e2].id
      {
        if e1 == email {
          assert out.state[e2] == users[e2];
        } else if e2 == email {
          assert out.state[e1] == users[e1];
        }
      }
    }
  }

  /** POST /auth/signin. An unknown email and a wrong password get the same
      answer; the table is only read. */
  function Signin(users: UserTable, body: RequestBody, env: Env, now: Time): (r: Response)
    ensures body.Unparsable? ==> r == InternalError
    ensures !body.Unparsable? && ParseSignin(body, env.isEmail).Rejected? ==>
      r == ValidationError(ParseSignin(body, env.isEmail).issues)
    ensures r.status == 200 <==>
      && !body.Unparsable? && ParseSignin(body, env.isEmail).Ok?
      && body.fields["email"].s in users
      && env.hasher.compare(body.fields["password"].s, users[body.fields["email"].s].passwordHash)
    ensures !body.Unparsable? && ParseSignin(body, env.isEmail).Ok? && r.status != 200 ==> r == InvalidCredentials
    ensures r.status == 200 ==>
      var user := users[body.fields["email"].s];
      r.payload == Session("Signed in successfully", env.tokens.issue(Claims(user.id, user.email), now), Public(user))
  {
    if body.Unparsable? then InternalError
    else match ParseSignin(body, env.isEmail)
      case Rejected(issues) => ValidationError(issues)
      case Ok(Credentials(email, password)) =>
        if email !in users then InvalidCredentials
        else
          var user := users[email];
          if !env.hasher.compare(password, user.passwordHash) then InvalidCredentials
          else
            var token := env.tokens.issue(Claims(user.id, user.email), now);
            Response(200, Session("Signed in successfully", token, Public(user)))
  }

  /** On a well-keyed table, a signin finds the user registered under the
      email sent, and the id in its token belongs to that user alone. */
  lemma SigninIdentifiesOneUser(users: UserTable, body: RequestBody, env: Env, now: Time)
    requires WellKeyed(users)
    requires Signin(users, body, env, now).status == 200
    ensures var email, user := body.fields["email"].s, Signin(users, body, env, now).payload.user;
      && user.email == email
      && (forall e :: e in users && users[e].id == user.id ==> e == email)
  {
    var email := body.fields["email"].s;
    assert Signin(users, body, env, now).payload.user == Public(users[email]);
  }

  /** POST /auth/signout: tokens are not tracked by the server, so there is
      nothing to revoke; it answers success without reading or changing any
      table, and without requiring a token. */
  function Signout(): (r: Response)
    ensures r.status == 200 && r.payload == Notice("Signed out successfully")
  {
    Response(200, Notice("Signed out successfully"))
  }

  /** The user table as signup changes it in place. */
  class UserStore {
    var users: UserTable

    ghost predicate Valid()
      reads this
    {
      WellKeyed(users)
    }

    constructor ()
      ensures Valid() && users == map[]
    {
      users := map[];
    }

    method Signup(body: RequestBody, env: Env, newId: string, salt: string, now: Time) returns (r: Response)
      requires Valid()
      modifies this
      ensures Valid()
      ensures Step(r, users) == SignupStep(old(users), body, env, newId, salt, now)
    {
      SignupKeepsTableWellKeyed(users, body, env, newId, salt, now);
      if body.Unparsable? {
        return InternalError;
      }
      var parsed := ParseSignup(body, env.isEmail);
      if parsed.Rejected? {
        return ValidationError(parsed.issues);
      }
      var email, password := parsed.value.email, parsed.value.password;
      if email in users {
        return UserExists;
      }
      var passwordHash := env.hasher.hash(password, salt);
      if IdTaken(users, newId) {
        return InternalError;
      }
      var user := User(newId, email, passwordHash, now);
      users := users[email := user];
      var token := env.tokens.issue(Claims(user.id, user.email), now);
      r := Response(201, Session("User created successfully", token, Public(user)));
    }
  }
}
