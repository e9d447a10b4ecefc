/**
  The security plugin: how an escaped exception becomes an HTTP status,
  and how a bearer credential becomes a principal. The API-key provider
  parses the token as a UUID and logs the host in; the two JWT providers
  (refresh and access) accept a token whose signature, audience and issuer
  check out, read its `uuid` claim and admit an enabled user. Signature
  checking and UUID parsing are foreign calls, given here as parameters.
 */
module Security {
  import opened Wrappers
  import opened Schema
  import UserService
  import HostService

  /** The HTTP statuses the core produces. */
  datatype Status = Ok | BadRequest | Unauthorized | Forbidden | NotFound | Unprocessable | InternalError

  /** The numeric HTTP code of each status. */
  function Code(s: Status): (c: nat)
    ensures 200 <= c < 600
    ensures s == Ok <==> c == 200
    ensures s == BadRequest <==> c == 400
    ensures s == Unauthorized <==> c == 401
    ensures s == Forbidden <==> c == 403
    ensures s == NotFound <==> c == 404
    ensures s == Unprocessable <==> c == 422
    ensures s == InternalError <==> c == 500
  {
    match s
    case Ok => 200
    case BadRequest => 400
    case Unauthorized => 401
    case Forbidden => 403
    case NotFound => 404
    case Unprocessable => 422
    case InternalError => 500
  }

  /** The exceptions the handlers throw, and the one a malformed request body raises. */
  datatype Failure =
    | AuthenticationException
    | AuthorizationException
    | ContentTransformationException
    | InternalServerError
    | NotFoundException

  /**
    The StatusPages table. Each exception has its own status, so
    "unauthenticated" (401) and "not allowed" (403) stay distinct, and no
    exception maps to 200 or 422.
   */
  function StatusOf(f: Failure): (s: Status)
    ensures f == AuthenticationException <==> s == Unauthorized
    ensures f == AuthorizationException <==> s == Forbidden
    ensures f == ContentTransformationException <==> s == BadRequest
    ensures f == InternalServerError <==> s == InternalError
    ensures f == NotFoundException <==> s == NotFound
  {
    match f
    case AuthenticationException => Unauthorized
    case AuthorizationException => Forbidden
    case ContentTransformationException => BadRequest
    case InternalServerError => InternalError
    case NotFoundException => NotFound
  }

  /** Distinct exceptions give distinct statuses. */
  lemma StatusOfInjective(f: Failure, g: Failure)
    requires StatusOf(f) == StatusOf(g)
    ensures f == g
  {
  }

  /**
    The "apikey" bearer provider: a token that is not a UUID yields no
    principal; otherwise the principal is whatever host login yields, which
    is a host principal for the single enabled host holding that key.
   */
  function ApiKeyAuthenticate(hosts: HostTable, token: string, parseUuid: string -> Option<Uuid>): (p: Option<Principal>)
    ensures parseUuid(token).None? ==> p.None?
    ensures parseUuid(token).Some? ==> p == HostService.Login(hosts, parseUuid(token).value)
    ensures p.Some? ==> p.value.HostPrincipal? && HostService.KeyHolder(hosts, parseUuid(token).value, p.value.id)
  {
    match parseUuid(token)
    case None => None
    case Some(key) => HostService.Login(hosts, key)
  }

  /**
    The `validate` block of both JWT providers: a user principal for the
    `uuid` claim exactly when the claim is present, parses, and names an
    enabled user.
   */
  function JwtValidate(users: UserTable, uuidClaim: Option<string>, parseUuid: string -> Option<Uuid>): (p: Option<Principal>)
    ensures p.Some? <==>
      uuidClaim.Some? && parseUuid(uuidClaim.value).Some? && UserService.Visible(users, parseUuid(uuidClaim.value).value)
    ensures p.Some? ==> p.value == UserPrincipal(parseUuid(uuidClaim.value).value)
  {
    match uuidClaim
    case None => None
    case Some(claim) =>
      match parseUuid(claim)
      case None => None
      case Some(id) =>
        match UserService.Get(users, id)
        case None => None
        case Some(user) => Some(UserPrincipal(user.id))
  }

  /** What the JWT library's verifier (signature, audience, issuer, expiry) makes of a token. */
  datatype JwtCheck = Rejected | Verified(uuidClaim: Option<string>)

  /**
    A JWT provider: a rejected token, or one `validate` turns down, leaves
    the call without a principal (its challenge answers 401); otherwise the
    principal is always a user principal for an enabled user, never a host.
   */
  function JwtAuthenticate(users: UserTable, check: JwtCheck, parseUuid: string -> Option<Uuid>): (p: Option<Principal>)
    ensures check.Rejected? ==> p.None?
    ensures check.Verified? ==> p == JwtValidate(users, check.uuidClaim, parseUuid)
    ensures p.Some? ==> p.value.UserPrincipal? && UserService.Visible(users, p.value.id)
  {
    match check
    case Rejected => None
    case Verified(claim) => JwtValidate(users, claim, parseUuid)
  }

  /** The status a provider's challenge sends when authentication fails. */
  function ChallengeStatus(): (s: Status)
    ensures Code(s) == 401
  {
    Unauthorized
  }
}
