/** The authentication middleware placed in front of every post route: it
    takes the token out of an `Authorization: Bearer <token>` header, has the
    token service verify it, and either answers 401 itself or records the
    verified claims in the request context and hands on to the route. */
module Gate {
  import opened Http
  import opened Services

  /** The case-sensitive prefix the header must start with. */
  const Scheme := "Bearer "

  const NoToken := Response(401, Failure("Unauthorized - No token provided"))
  const BadToken := Response(401, Failure("Unauthorized - Invalid token"))

  predicate StartsWithScheme(header: string)
  {
    |header| >= |Scheme| && header[..|Scheme|] == Scheme
  }

  /** The token of a header that is present and starts with the scheme:
      the header without its first seven characters. */
  function BearerToken(header: Option<string>): (token: Option<string>)
    ensures token.Some? <==> header.Some? && StartsWithScheme(header.value)
    ensures token.Some? ==> header.value == Scheme + token.value
  {
    if header.Some? && StartsWithScheme(header.value) then Some(header.value[|Scheme|..]) else None
  }

  /** A header written as `Bearer ${token}`, the way the client builds it,
      gives back exactly that token. */
  lemma BearerRoundTrip(token: string)
    ensures BearerToken(Some(Scheme + token)) == Some(token)
  {
    assert (Scheme + token)[..|Scheme|] == Scheme;
    assert (Scheme + token)[|Scheme|..] == token;
  }

  /** The scheme is matched case-sensitively: a lower-case `bearer ` prefix
      is treated like a missing header. */
  lemma LowerCaseSchemeRefused(token: string)
    ensures BearerToken(Some("bearer " + token)) == None
  {
    assert ("bearer " + token)[0] == 'b';
  }

  /** What the middleware decides for one request. */
  datatype Decision = Reject(response: Response) | Admit(claims: Claims)

  function Decide(header: Option<string>, tokens: TokenService, now: Time): (d: Decision)
    ensures BearerToken(header).None? ==> d == Reject(NoToken)
    ensures BearerToken(header).Some? && tokens.verify(BearerToken(header).value, now).None? ==> d == Reject(BadToken)
    ensures d.Admit? <==> exists token :: header == Some(Scheme + token) && tokens.verify(token, now).Some?
    ensures d.Admit? ==> Some(d.claims) == tokens.verify(header.value[|Scheme|..], now)
  {
    match BearerToken(header)
    case None => Reject(NoToken)
    case Some(token) =>
      match tokens.verify(token, now)
      case None => Reject(BadToken)
      case Some(claims) => Admit(claims)
  }

  /** A missing or malformed header and a token that fails verification
      are told apart by their messages, and both are 401. */
  lemma RejectionsDiffer()
    ensures NoToken.status == BadToken.status == 401
    ensures NoToken.payload != BadToken.payload
  {
  }

  /** The per-request context the middleware writes into (`c.set('user', …)`). */
  class Context {
    var user: Option<Claims>

    constructor ()
      ensures user == None
    {
      user := None;
    }
  }

  /** How the middleware ends: by answering itself, or by calling `next`
      once, which runs the route's handler. */
  datatype Outcome = Responded(response: Response) | CalledNext

  /** `authMiddleware`: only the context is written; no store is read or changed. */
  method AuthMiddleware(c: Context, header: Option<string>, tokens: TokenService, now: Time) returns (out: Outcome)
    modifies c
    ensures out.CalledNext? <==> Decide(header, tokens, now).Admit?
    ensures out.CalledNext? ==> c.user == Some(Decide(header, tokens, now).claims)
    ensures out.Responded? ==> out.response == Decide(header, tokens, now).response && c.user == old(c.user)
  {
    if header.None? || !StartsWithScheme(header.value) {
      return Responded(NoToken);
    }
    var token := header.value[7..];
    var payload := tokens.verify(token, now);
    if payload.None? {
      return Responded(BadToken);
    }
    c.user := payload;
    out := CalledNext;
  }
}
