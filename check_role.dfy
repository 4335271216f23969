/** `checkRole(allowedRoles)` (backend/middleware/checkRole.js): the authorization gate. */
module CheckRoleMiddleware {
  import opened Base

  const NotAuthenticated: string := "Usuário não autenticado."
  const AccessDenied: string := "Acesso negado."

  /** Either the gate calls `next()`, or it writes a response with this status and error. */
  datatype Verdict = Proceed | Halt(status: nat, error: string)

  /** The middleware that `checkRole(allowedRoles)` returns, applied to `req.user`. */
  function CheckRole(allowedRoles: seq<string>, user: Option<Claims>): (v: Verdict)
    ensures v == Halt(401, NotAuthenticated) <==> user.None?
    ensures v == Halt(403, AccessDenied) <==> user.Some? && user.value.role !in allowedRoles
    ensures v == Proceed <==> user.Some? && user.value.role in allowedRoles
  {
    if user.None? then Halt(401, NotAuthenticated)
    else if user.value.role !in allowedRoles then Halt(403, AccessDenied)
    else Proceed
  }

  /** Only membership matters: enlarging the allowed set never turns a pass into a denial. */
  lemma CheckRoleMonotonic(allowed: seq<string>, larger: seq<string>, user: Option<Claims>)
    requires forall r :: r in allowed ==> r in larger
    ensures CheckRole(allowed, user) == Proceed ==> CheckRole(larger, user) == Proceed
  {
  }
}
