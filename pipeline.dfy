/** A protected route registers `authenticateToken`, then `checkRole(allowedRoles)`, then its handler. */
module Pipeline {
  import opened Base
  import opened CheckRoleMiddleware
  import opened AuthMiddleware

  /** The two gates in their registration order: the claims the handler sees as `req.user`, or
      the response one of the gates writes. */
  function Admit(authHeader: Option<string>, verify: string -> Option<Claims>,
                 allowedRoles: seq<string>): (r: Auth)
    ensures AuthenticateToken(authHeader, verify).Rejected?
        ==> r == AuthenticateToken(authHeader, verify)
    ensures r.Authenticated?
        <==> AuthenticateToken(authHeader, verify).Authenticated?
             && AuthenticateToken(authHeader, verify).user.role in allowedRoles
    ensures r.Authenticated? ==> r == AuthenticateToken(authHeader, verify)
    ensures r.Rejected? && AuthenticateToken(authHeader, verify).Authenticated?
        ==> r == Rejected(403, AccessDenied)
    // behind authenticateToken, checkRole's "not authenticated" answer can never be given
    ensures r != Rejected(401, NotAuthenticated)
  {
    match AuthenticateToken(authHeader, verify)
    case Rejected(status, error) => Rejected(status, error)
    case Authenticated(user) =>
      match CheckRole(allowedRoles, Some(user))
      case Proceed => Authenticated(user)
      case Halt(status, error) => Rejected(status, error)
  }
}
