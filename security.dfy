/**
 * Caller identity: bearer-token decoding, role resolution with the
 * `app_metadata` fallback, the closed role set, and the per-endpoint role
 * gate. The JWT library itself is foreign: it appears as a function from
 * (token, secret) to the decoded claims, or None for a token it rejects.
 */
module Security {
  import opened Wrappers
  import opened Json
  import opened Http

  datatype Role = User | Lawyer | Admin

  function RoleName(r: Role): string
  {
    match r
    case User => "user"
    case Lawyer => "lawyer"
    case Admin => "admin"
  }

  /** Membership of a claim value in `{"user", "lawyer", "admin"}`. */
  function RoleOf(j: Json): (r: Option<Role>)
    ensures r.Some? <==> j == JStr("user") || j == JStr("lawyer") || j == JStr("admin")
    ensures r.Some? ==> j == JStr(RoleName(r.value))
  {
    if j == JStr("user") then Some(User)
    else if j == JStr("lawyer") then Some(Lawyer)
    else if j == JStr("admin") then Some(Admin)
    else None
  }

  datatype AuthenticatedUser = AuthenticatedUser(id: string, email: Json, role: Role)

  type Claims = Record

  /** The JWT library's HS256 decode: the claims of a token valid under the secret, None otherwise. */
  type JwtDecode = (string, string) -> Option<Claims>

  /** `TokenVerifier` keeps the shared secret given at construction. */
  datatype TokenVerifier = TokenVerifier(secret: string)

  function Decode(v: TokenVerifier, token: string, jwt: JwtDecode): (r: Result<Claims, HttpError>)
    ensures r.Success? <==> jwt(token, v.secret).Some?
    ensures r.Success? ==> r.value == jwt(token, v.secret).value
    ensures r.Failure? ==> r.error == HttpError(Unauthorized, JStr("Invalid or expired access token"))
  {
    match jwt(token, v.secret)
    case None => Failure(HttpError(Unauthorized, JStr("Invalid or expired access token")))
    case Some(claims) => Success(claims)
  }

  /**
   * `payload.get("role") or payload.get("app_metadata", {}).get("role")`:
   * the top-level claim when it is truthy, otherwise the nested one. A
   * present `app_metadata` that is not an object has no `.get` and raises.
   */
  function RoleClaim(claims: Claims): (r: Result<Json, HttpError>)
    ensures Truthy(Get(claims, "role")) ==> r == Success(claims["role"])
    ensures !Truthy(Get(claims, "role")) && "app_metadata" !in claims ==> r == Success(JNull)
    ensures !Truthy(Get(claims, "role")) && "app_metadata" in claims && claims["app_metadata"].JObject? ==>
              r == Success(Get(claims["app_metadata"].fields, "role"))
    ensures r.Failure? <==>
      !Truthy(Get(claims, "role")) && "app_metadata" in claims && !claims["app_metadata"].JObject?
    ensures r.Failure? ==> r.error.code == InternalServerError
  {
    var top := Get(claims, "role");
    if Truthy(top) then Success(top)
    else if "app_metadata" !in claims then Success(JNull)
    else match claims["app_metadata"]
      case JObject(meta) => Success(Get(meta, "role"))
      case _ => Failure(InternalError())
  }

  /**
   * The resolved role, checked against the closed set. An absent or unknown
   * role is refused with 403, never defaulted to "user"; a list or object
   * cannot be tested for set membership and raises.
   */
  function ResolveRole(claims: Claims): (r: Result<Role, HttpError>)
    ensures r.Success? <==> RoleClaim(claims).Success? && RoleOf(RoleClaim(claims).value).Some?
    ensures r.Success? ==> RoleClaim(claims) == Success(JStr(RoleName(r.value)))
    ensures RoleClaim(claims).Success? && RoleClaim(claims).value == JNull ==>
              r == Failure(HttpError(Forbidden, JStr("Unsupported role")))
    ensures RoleClaim(claims).Success? && Hashable(RoleClaim(claims).value) && r.Failure? ==>
              r.error == HttpError(Forbidden, JStr("Unsupported role"))
    ensures r.Failure? && r.error.code != Forbidden ==> r.error.code == InternalServerError
  {
    match RoleClaim(claims)
    case Failure(e) => Failure(e)
    case Success(claim) =>
      if !Hashable(claim) then Failure(InternalError())
      else match RoleOf(claim)
        case None => Failure(HttpError(Forbidden, JStr("Unsupported role")))
        case Some(role) => Success(role)
  }

  /**
   * `get_current_user`: 401 without credentials (before any decoding), 401
   * for a token the library rejects, the role checks above, and otherwise
   * the identity built from `sub`, `email` and the role.
   */
  function GetCurrentUser(credentials: Option<string>, v: TokenVerifier, jwt: JwtDecode): (r: Result<AuthenticatedUser, HttpError>)
    ensures credentials.None? ==> r == Failure(HttpError(Unauthorized, JStr("Missing Authorization header")))
    ensures credentials.Some? && jwt(credentials.value, v.secret).None? ==>
              r == Failure(HttpError(Unauthorized, JStr("Invalid or expired access token")))
    ensures credentials.Some? && jwt(credentials.value, v.secret).Some?
            && ResolveRole(jwt(credentials.value, v.secret).value).Failure? ==>
              r == Failure(ResolveRole(jwt(credentials.value, v.secret).value).error)
    ensures r.Success? <==>
      credentials.Some? && jwt(credentials.value, v.secret).Some?
      && ResolveRole(jwt(credentials.value, v.secret).value).Success?
    ensures r.Success? ==>
      var claims := jwt(credentials.value, v.secret).value;
      && r.value.id == StrOf(Get(claims, "sub"))
      && r.value.email == Get(claims, "email")
      && RoleClaim(claims) == Success(JStr(RoleName(r.value.role)))
    ensures r.Failure? ==> r.error.code in {Unauthorized, Forbidden, InternalServerError}
  {
    match credentials
    case None => Failure(HttpError(Unauthorized, JStr("Missing Authorization header")))
    case Some(token) =>
      match Decode(v, token, jwt)
      case Failure(e) => Failure(e)
      case Success(claims) =>
        match ResolveRole(claims)
        case Failure(e) => Failure(e)
        case Success(role) => Success(AuthenticatedUser(StrOf(Get(claims, "sub")), Get(claims, "email"), role))
  }

  /**
   * `require_role(*allowed)`: the same user when their role is allowed,
   * 403 otherwise; an authentication failure passes through unchanged.
   */
  function RequireRole(allowed: set<Role>, auth: Result<AuthenticatedUser, HttpError>): (r: Result<AuthenticatedUser, HttpError>)
    ensures r.Success? <==> auth.Success? && auth.value.role in allowed
    ensures r.Success? ==> r == auth
    ensures auth.Failure? ==> r == auth
    ensures auth.Success? && auth.value.role !in allowed ==>
              r == Failure(HttpError(Forbidden, JStr("Insufficient role permissions")))
  {
    match auth
    case Failure(_) => auth
    case Success(user) =>
      if user.role in allowed then auth
      else Failure(HttpError(Forbidden, JStr("Insufficient role permissions")))
  }

  /**
   * A token whose claims carry no role at either level is refused at
   * authentication; a "user" token that authenticates is refused by both the
   * lawyer gate and the admin gate.
   */
  lemma UserTokensNeverReachGatedEndpoints(credentials: Option<string>, v: TokenVerifier, jwt: JwtDecode)
    ensures credentials.Some? && jwt(credentials.value, v.secret).Some?
            && "role" !in jwt(credentials.value, v.secret).value
            && "app_metadata" !in jwt(credentials.value, v.secret).value ==>
              GetCurrentUser(credentials, v, jwt) == Failure(HttpError(Forbidden, JStr("Unsupported role")))
    ensures var auth := GetCurrentUser(credentials, v, jwt);
            auth.Success? && auth.value.role == User ==>
              && RequireRole({Lawyer}, auth).error.code == Forbidden
              && RequireRole({Admin}, auth).error.code == Forbidden
  {
  }
}
