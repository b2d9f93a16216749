/** The authentication gate run before every protected handler: it takes the bearer
    token (section 2.1 of RFC 6750) out of the `Authorization` header, has it verified,
    and attaches the resulting identity to the request. */
module AuthPlugin {
  import opened Wrappers
  import opened UserModel
  import opened Services

  const BearerPrefix := "Bearer "

  const MissingToken := Failure(401, "Missing token")
  const InvalidToken := Failure(401, "Invalid token")

  /** The token of an `Authorization` header: what follows the exact, case-sensitive
      prefix `Bearer `; None when the header is absent or lacks the prefix. */
  function BearerToken(header: Option<string>): (r: Option<string>)
    ensures r.Some? ==> header == Some(BearerPrefix + r.value)
    ensures r.None? ==> header.None? || |header.value| < |BearerPrefix| || header.value[..|BearerPrefix|] != BearerPrefix
  {
    match header
    case None => None
    case Some(h) =>
      if |h| >= |BearerPrefix| && h[..|BearerPrefix|] == BearerPrefix then
        assert h == BearerPrefix + h[|BearerPrefix|..];
        Some(h[|BearerPrefix|..])
      else None
  }

  /** Stripping the prefix gives back exactly the token that was put after it. */
  lemma BearerRoundTrip(t: string)
    ensures BearerToken(Some(BearerPrefix + t)) == Some(t)
  {
  }

  /** The gate's decision: the identity to attach, or the 401 reply to send. A missing
      or malformed header is refused before any verification. */
  function Gate(header: Option<string>, verify: string -> Option<Identity>): (r: Result<Identity>)
    ensures r == Err(MissingToken) <==> BearerToken(header).None?
    ensures r == Err(InvalidToken) <==> BearerToken(header).Some? && verify(BearerToken(header).value).None?
    ensures r.Ok? <==> BearerToken(header).Some? && verify(BearerToken(header).value).Some?
    ensures r.Ok? ==> exists t :: header == Some(BearerPrefix + t) && verify(t) == Some(r.value)
  {
    match BearerToken(header)
    case None => Err(MissingToken)
    case Some(t) =>
      match verify(t)
      case None => Err(InvalidToken)
      case Some(payload) => Ok(Identity(payload.userId, payload.role))
  }

  /** A token the service signed passes the gate when sent with the prefix, and
      attaches exactly the identity it was signed for. */
  lemma GateAcceptsSignedToken(env: Env, id: Identity)
    requires TokensSound(env)
    ensures Gate(Some(BearerPrefix + env.sign(id)), env.verify) == Ok(id)
  {
  }

  /** An inbound request: its `Authorization` header and the identity attached to it. */
  class Request {
    const authorization: Option<string>
    var user: Option<Identity>

    /** A request as it arrives: no identity attached yet. */
    constructor (authorization: Option<string>)
      ensures this.authorization == authorization && user.None?
    {
      this.authorization := authorization;
      user := None;
    }

    /** The `authenticate` pre-handler. It returns the reply it sends, or None when it
        sends nothing and the route handler proceeds; only then is `user` set. */
    method Authenticate(verify: string -> Option<Identity>) returns (reply: Option<Failure>)
      modifies this
      ensures match Gate(authorization, verify)
        case Err(f) => reply == Some(f) && user == old(user)
        case Ok(id) => reply.None? && user == Some(id)
    {
      var token := BearerToken(authorization);
      if token.None? {
        return Some(MissingToken);
      }
      var payload := verify(token.value);
      if payload.None? {
        return Some(InvalidToken);
      }
      user := Some(Identity(payload.value.userId, payload.value.role));
      reply := None;
    }
  }
}
