/** The client's route guards (usecase-frontend/src/components/AdminRoute.jsx and
    PrivateRoute.jsx) and its edit check (usecase-frontend/src/pages/UseCaseDetails.jsx). The
    stored token is an input (`None` when `localStorage` has none) and `decode` stands for
    `jwtDecode`, `None` when it throws. The client never checks the signature. */
module RouteGuards {
  import opened Base
  import opened UserModel
  import opened AuthMiddleware
  import opened Pipeline
  import opened UseCaseModel
  import opened UseCaseRoutes

  const Landing: string := "/"
  const Dashboard: string := "/dashboard"
  const Unauthorized: string := "/unauthorized"

  /** What a guard renders: its children, or a `<Navigate>` to a path. */
  datatype Render = Children | Redirect(to: string)

  /** AdminRoute. */
  function AdminRoute(token: Option<string>, decode: string -> Option<Claims>): (g: Render)
    ensures !Truthy(token) ==> g == Redirect(Landing)
    ensures Truthy(token) && decode(token.value).None? ==> g == Redirect(Landing)
    ensures Truthy(token) && decode(token.value).Some? && decode(token.value).value.role != Admin
        ==> g == Redirect(Dashboard)
    ensures g == Children
        <==> Truthy(token) && decode(token.value).Some? && decode(token.value).value.role == Admin
  {
    if !Truthy(token) then Redirect(Landing)
    else
      match decode(token.value)
      case None => Redirect(Landing)
      case Some(decoded) => if decoded.role != Admin then Redirect(Dashboard) else Children
  }

  /** PrivateRoute, with its optional `roles` list. */
  function PrivateRoute(token: Option<string>, decode: string -> Option<Claims>,
                        roles: Option<seq<string>>): (g: Render)
    ensures !Truthy(token) ==> g == Redirect(Landing)
    ensures Truthy(token) && decode(token.value).None? ==> g == Redirect(Landing)
    ensures Truthy(token) && decode(token.value).Some? && roles.Some?
            && decode(token.value).value.role !in roles.value
        ==> g == Redirect(Unauthorized)
    ensures g == Children
        <==> Truthy(token) && decode(token.value).Some?
             && (roles.None? || decode(token.value).value.role in roles.value)
  {
    if !Truthy(token) then Redirect(Landing)
    else
      match decode(token.value)
      case None => Redirect(Landing)
      case Some(decoded) =>
        if roles.Some? && decoded.role !in roles.value then Redirect(Unauthorized) else Children
  }

  /** AdminRoute admits exactly whom PrivateRoute with `roles = ["admin"]` admits; the two differ
      only in where they send a signed-in non-admin. */
  lemma AdminRouteMatchesPrivateRoute(token: Option<string>, decode: string -> Option<Claims>)
    ensures AdminRoute(token, decode).Children? <==> PrivateRoute(token, decode, Some([Admin])).Children?
    ensures AdminRoute(token, decode) == Redirect(Dashboard)
        <==> PrivateRoute(token, decode, Some([Admin])) == Redirect(Unauthorized)
  {
  }

  /** The client's advisory check agrees with the server's admin-only gates: a token that the
      client decodes to the claims the server verifies, sent as `Bearer <token>`, renders the
      admin pages exactly when the server admits it to the admin-only routes. */
  lemma AdminRouteAgreesWithServer(token: string, decode: string -> Option<Claims>,
                                   verify: string -> Option<Claims>)
    requires token != "" && ' ' !in token
    requires decode(token) == verify(token)
    ensures AdminRoute(Some(token), decode).Children?
        <==> Admit(Some("Bearer " + token), verify, DeleteRoles).Authenticated?
  {
    assert ' ' !in "Bearer";
    SchemeIgnored("Bearer", token);
    assert "Bearer" + " " + token == "Bearer " + token;
  }

  /** `canEdit` of the details page, from the decoded role and id and the use case's creator. */
  function CanEdit(user: Claims, createdBy: Option<int>): (b: bool)
    ensures b ==> user.role == Admin || user.role == Editor
  {
    user.role == Admin || (user.role == Editor && createdBy == Some(user.id))
  }

  /** The client shows the edit button exactly when the server's update route would let the
      caller through both its role gate and its ownership check. */
  lemma CanEditAgreesWithServer(user: Claims, u: UseCase)
    ensures CanEdit(user, u.createdBy) <==> user.role in UpdateRoles && MayEdit(user, u)
  {
  }
}
