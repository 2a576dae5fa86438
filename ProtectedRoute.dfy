/**
 * The route guard: from the authentication state (loading flag, signed-in user,
 * profile role) and the route's required role and children, decide what renders.
 */
module ProtectedRoute {
  import opened Wrappers

  datatype Role = Admin | Seller | Customer

  datatype User = User(id: string)

  datatype Profile = Profile(role: Role)

  /** Whatever the route wraps; None stands for falsy children. */
  datatype Node = Node(key: string)

  datatype Outcome =
    | Loading
    | RedirectLogin
    | RedirectUnauthorized
    | RenderOutlet
    | RenderChildren(children: Node)

  /** The role requirement, stated on its own: none, or the required role, or admin. */
  predicate RoleAdmits(profile: Option<Profile>, requiredRole: Option<Role>)
    ensures profile == Some(Profile(Admin)) ==> RoleAdmits(profile, requiredRole)
    ensures requiredRole.None? ==> RoleAdmits(profile, requiredRole)
    ensures requiredRole.Some? && profile.None? ==> !RoleAdmits(profile, requiredRole)
  {
    requiredRole.None? || (profile.Some? && profile.value.role in {requiredRole.value, Admin})
  }

  /** The chain of early returns. */
  function Guard(isLoading: bool, user: Option<User>, profile: Option<Profile>,
                 requiredRole: Option<Role>, children: Option<Node>): (r: Outcome)
    ensures isLoading ==> r == Loading
    ensures !isLoading && user.None? ==> r == RedirectLogin
    ensures r == RedirectUnauthorized <==> !isLoading && user.Some? && !RoleAdmits(profile, requiredRole)
    ensures r.RenderOutlet? || r.RenderChildren? <==> !isLoading && user.Some? && RoleAdmits(profile, requiredRole)
    ensures r == RenderOutlet <==> !isLoading && user.Some? && RoleAdmits(profile, requiredRole) && children.None?
    ensures r.RenderChildren? ==> children == Some(r.children)
  {
    if isLoading then Loading
    else if user.None? then RedirectLogin
    else if requiredRole.Some? && (profile.None? || profile.value.role != requiredRole.value)
         && (profile.None? || profile.value.role != Admin) then RedirectUnauthorized
    else if children.None? then RenderOutlet
    else RenderChildren(children.value)
  }

  /** A signed-in admin passes every route once loading has finished. */
  lemma AdminPassesEveryRoute(user: User, requiredRole: Option<Role>, children: Option<Node>)
    ensures Guard(false, Some(user), Some(Profile(Admin)), requiredRole, children) != RedirectUnauthorized
    ensures Guard(false, Some(user), Some(Profile(Admin)), requiredRole, children) != RedirectLogin
  {
  }
}
