/** Properties that span the middleware and the handlers: what a client
    that signs up, signs in and then calls the post routes with the token it
    was given can rely on. */
module Flows {
  import opened Http
  import opened Schema
  import opened Services
  import opened Gate
  import opened Posts
  import opened Auth

  /** After a successful signup, signing in with the same body succeeds and
      shows the user just created, at any later time. */
  lemma SigninAfterSignup(users: UserTable, body: RequestBody, env: Env, newId: string, salt: string, now: Time, later: Time)
    requires HashSound(env.hasher)
    requires SignupStep(users, body, env, newId, salt, now).response.status == 201
    ensures var r := Signin(SignupStep(users, body, env, newId, salt, now).state, body, env, later);
      && r.status == 200
      && r.payload.user == UserView(newId, body.fields["email"].s, now)
  {
    var email, password := body.fields["email"].s, body.fields["password"].s;
    var after := SignupStep(users, body, env, newId, salt, now).state;
    assert after[email].passwordHash == env.hasher.hash(password, salt);
    assert env.hasher.compare(password, env.hasher.hash(password, salt));
    assert ParseSignin(body, env.isEmail).Ok?;
  }

  /** The token of a successful signin, sent back as `Bearer <token>` and
      checked at the instant of signin, passes the middleware with the
      signed-in user's id and email as claims. */
  lemma SigninTokenPassesGate(users: UserTable, body: RequestBody, env: Env, now: Time)
    requires TokenSound(env.tokens)
    requires Signin(users, body, env, now).status == 200
    ensures var r := Signin(users, body, env, now);
      var user := users[body.fields["email"].s];
      Decide(Some(Scheme + r.payload.token), env.tokens, now) == Admit(Claims(user.id, user.email))
  {
    var r := Signin(users, body, env, now);
    var user := users[body.fields["email"].s];
    BearerRoundTrip(r.payload.token);
    assert r.payload.token == env.tokens.issue(Claims(user.id, user.email), now);
  }

  /** A token issued to one user never lets that user change or remove a
      post another user wrote: both routes answer 403 and the table stays. */
  lemma ForeignTokenCannotMutate(posts: PostTable, tokens: TokenService, holder: Claims, now: Time, id: string, body: RequestBody)
    requires TokenSound(tokens)
    requires id in posts && posts[id].authorId != holder.userId
    requires !body.Unparsable? && ParsePatch(body).Ok?
    ensures var d := Decide(Some(Scheme + tokens.issue(holder, now)), tokens, now);
      && d == Admit(holder)
      && UpdatePost(posts, d.claims, id, body) == Step(EditForbidden, posts)
      && DeletePost(posts, d.claims, id) == Step(DeleteForbidden, posts)
  {
    BearerRoundTrip(tokens.issue(holder, now));
  }

  /** The first half of the walk-through: `a@x.com` and `b@x.com` sign up,
      `a@x.com` signs in again; the tokens they hold pass the middleware
      with their own claims. */
  method SignUpTwoUsers(env: Env, now: Time) returns (tokenA: string, tokenB: string)
    requires HashSound(env.hasher) && TokenSound(env.tokens)
    requires env.isEmail("a@x.com") && env.isEmail("b@x.com")
    ensures Decide(Some(Scheme + tokenA), env.tokens, now) == Admit(Claims("user-a", "a@x.com"))
    ensures Decide(Some(Scheme + tokenB), env.tokens, now) == Admit(Claims("user-b", "b@x.com"))
  {
    var users := new UserStore();
    var signupA := Object(map["email" := JString("a@x.com"), "password" := JString("secret1")]);
    var signupB := Object(map["email" := JString("b@x.com"), "password" := JString("secret2")]);
    assert HasString(signupA.fields, "password", MinPasswordLength);
    assert HasString(signupB.fields, "password", MinPasswordLength);
    var a := users.Signup(signupA, env, "user-a", "salt-a", now);
    assert a.status == 201;
    ghost var beforeB := users.users;
    var b := users.Signup(signupB, env, "user-b", "salt-b", now);
    assert b.status == 201 by {
      assert "b@x.com" !in beforeB;
      assert !IdTaken(beforeB, "user-b");
    }
    assert users.users["a@x.com"] == beforeB["a@x.com"];
    var signedIn := Signin(users.users, signupA, env, now);
    assert signedIn.status == 200 by {
      assert env.hasher.compare("secret1", env.hasher.hash("secret1", "salt-a"));
    }
    SigninTokenPassesGate(users.users, signupA, env, now);
    tokenA := signedIn.payload.token;
    tokenB := b.payload.token;
    BearerRoundTrip(tokenB);
  }

  /** The walk-through of the API: `a@x.com` signs up and signs in, creates
      a post with the token it got, and `b@x.com`'s attempt to edit that
      post is refused with 403. */
  method Walkthrough(env: Env, now: Time) returns (created: Response, edit: Response)
    requires HashSound(env.hasher) && TokenSound(env.tokens)
    requires env.isEmail("a@x.com") && env.isEmail("b@x.com")
    ensures created.status == 201 && created.payload.PostSaved? && created.payload.post.authorId == "user-a"
    ensures edit == EditForbidden
  {
    var tokenA, tokenB := SignUpTwoUsers(env, now);

    var ctxA := new Context();
    var gateA := AuthMiddleware(ctxA, Some(Scheme + tokenA), env.tokens, now);
    var posts := new PostStore();
    var post := Object(map["title" := JString("T"), "content" := JString("C")]);
    assert HasString(post.fields, "title", 1) && HasString(post.fields, "content", 1);
    created := posts.Create(ctxA.user.value, post, "post-1", now);

    var ctxB := new Context();
    var gateB := AuthMiddleware(ctxB, Some(Scheme + tokenB), env.tokens, now);
    var patch := Object(map["title" := JString("B's title")]);
    assert HasString(patch.fields, "title", 1);
    edit := posts.Update(ctxB.user.value, "post-1", patch);
  }
}
