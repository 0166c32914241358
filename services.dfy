/** The collaborators the handlers call but whose code is not part of this
    model: bcrypt, the JWT utilities and zod's email format check. Each is a
    function-valued field; what the handlers rely on about them is stated as
    a predicate that the lemmas needing it take as a precondition. */
module Services {
  import opened Http

  /** bcrypt: `hash(password, salt)` (the salt is bcrypt's randomness) and
      `compare(password, digest)`. */
  datatype Hasher = Hasher(hash: (string, string) -> string, compare: (string, string) -> bool)

  /** A digest made from a password always compares equal to that password. */
  ghost predicate HashSound(h: Hasher)
  {
    forall password, salt :: h.compare(password, h.hash(password, salt))
  }

  /** `generateToken(claims)` and `verifyToken(token)`, both reading the
      clock for the expiry; `verify` answers `None` for any token it does not
      accept (malformed, badly signed or expired) without saying which. */
  datatype TokenService = TokenService(issue: (Claims, Time) -> string, verify: (string, Time) -> Option<Claims>)

  /** A token verified at the instant it was issued gives back its claims. */
  ghost predicate TokenSound(t: TokenService)
  {
    forall claims, now :: t.verify(t.issue(claims, now), now) == Some(claims)
  }

  /** The configuration the auth handlers are built with. */
  datatype Env = Env(isEmail: string -> bool, hasher: Hasher, tokens: TokenService)
}
