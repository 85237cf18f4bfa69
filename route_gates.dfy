/**
 * The two route guards, src/components/AdminRoute.tsx and
 * src/components/ProtectedRoute.tsx: what each renders for an authentication
 * state (`loading`, and the signed-in user if any).
 */
module RouteGates {
  import opened Types

  datatype Outcome = ShowLoader | RedirectTo(path: string) | RenderChildren

  /** `AdminRoute`: the loader while loading, "/" unless an admin is signed in, the children otherwise. */
  function AdminGate(loading: bool, user: Option<User>): (r: Outcome)
    ensures loading ==> r == ShowLoader
    ensures !loading && user.None? ==> r == RedirectTo("/")
    ensures !loading && user.Some? && user.value.role != AdminRole ==> r == RedirectTo("/")
    ensures r == RenderChildren <==> !loading && user.Some? && user.value.role == AdminRole
  {
    if loading then ShowLoader
    else if user.None? || user.value.role != AdminRole then RedirectTo("/")
    else RenderChildren
  }

  /** `ProtectedRoute`: the loader while loading, "/login" when nobody is signed in, the children otherwise. */
  function ProtectedGate(loading: bool, user: Option<User>): (r: Outcome)
    ensures loading ==> r == ShowLoader
    ensures !loading && user.None? ==> r == RedirectTo("/login")
    ensures r == RenderChildren <==> !loading && user.Some?
  {
    if loading then ShowLoader
    else if user.None? then RedirectTo("/login")
    else RenderChildren
  }

  /** The admin gate is the stricter one: whatever it lets through, the signed-in gate lets through too. */
  lemma AdminRenderImpliesProtectedRender(loading: bool, user: Option<User>)
    ensures AdminGate(loading, user) == RenderChildren ==> ProtectedGate(loading, user) == RenderChildren
    ensures ProtectedGate(loading, user) != RenderChildren ==> AdminGate(loading, user) != RenderChildren
  {
  }

  /** The signed-in gate ignores the role; the two gates differ only for a signed-in non-admin. */
  lemma GatesDifferOnlyForNonAdmins(loading: bool, user: Option<User>, role: Role)
    ensures user.Some? ==> ProtectedGate(loading, Some(user.value.(role := role))) == ProtectedGate(loading, user)
    ensures AdminGate(loading, user) != ProtectedGate(loading, user) <==>
      !loading && (user.None? || user.value.role != AdminRole)
  {
  }
}
