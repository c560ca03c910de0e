/** `src/components/ProtectedRoute.jsx`: whether a page is shown, given the
    token and role kept by the browser. */
module ProtectedRoute {
  import opened Options

  datatype Decision = RedirectToLogin | RedirectToUnauthorized | RenderChildren

  /** `token` and `role` as stored (`None` when absent); `allowedRoles` as
      passed (`None` when not given). */
  function Decide(token: Option<string>, role: Option<string>, allowedRoles: Option<seq<string>>): (d: Decision)
    ensures d == RedirectToLogin <==> token.None? || token.value == ""
    ensures d == RedirectToUnauthorized <==>
      && token.Some? && token.value != ""
      && allowedRoles.Some? && allowedRoles.value != []
      && !(role.Some? && role.value in allowedRoles.value)
  {
    if token.None? || token.value == "" then RedirectToLogin
    else if allowedRoles.Some? && |allowedRoles.value| > 0
      && !(role.Some? && role.value in allowedRoles.value) then RedirectToUnauthorized
    else RenderChildren
  }

  /** The page is shown exactly to a signed-in user who either needs no
      particular role or holds one of the allowed roles. */
  lemma RenderIffAllowed(token: Option<string>, role: Option<string>, allowedRoles: Option<seq<string>>)
    ensures Decide(token, role, allowedRoles) == RenderChildren <==>
      && token.Some? && token.value != ""
      && (allowedRoles.None? || allowedRoles.value == [] || (role.Some? && role.value in allowedRoles.value))
  {
  }

  /** Without a token the roles are never looked at. */
  lemma NoTokenIgnoresRoles(role1: Option<string>, roles1: Option<seq<string>>,
                            role2: Option<string>, roles2: Option<seq<string>>)
    ensures Decide(None, role1, roles1) == Decide(None, role2, roles2) == RedirectToLogin
  {
  }
}
