/** `backend/middlewares/authMiddleware.js`: the checks in front of the
    protected API routes. Verifying the token and looking up its user are
    calls into other code; their outcome is a parameter here. */
module AuthMiddleware {
  import opened Options
  import opened JsText

  datatype User = User(email: string, role: string)

  /** What checking a token gave: the user found for it (`None` when the
      lookup found nobody), or the name of the error thrown. */
  datatype Verification = Verified(user: Option<User>) | Rejected(errorName: string)

  /** The middleware either calls `next()` with the request's user or
      answers with a status and a message. */
  datatype Outcome = Next(user: Option<User>) | Respond(status: nat, message: string)

  const NoTokenMessage := "Not authorized, no token"
  const ExpiredMessage := "Session expired. Please login again."
  const InvalidTokenMessage := "Not authorized. Invalid token."
  const NotAdminMessage := "Not authorized as admin"
  const NotSuperadminMessage := "Not authorized as superadmin"
  const AccessDeniedMessage := "Access denied"

  /** `authorization.split(" ")[1]`: the second space-separated field, if
      there is one. */
  function BearerToken(header: string): (token: Option<string>)
    ensures token.Some? ==> ' ' !in token.value
  {
    var fields := Split(header, ' ');
    if |fields| >= 2 then Some(fields[1]) else None
  }

  /** The token after "Bearer " comes back as it was sent. */
  lemma BearerTokenRoundTrip(token: string, rest: string)
    requires ' ' !in token
    ensures BearerToken("Bearer " + token) == Some(token)
    ensures BearerToken("Bearer " + token + " " + rest) == Some(token)
  {
    SplitAfterPiece("Bearer", ' ', token);
    assert "Bearer " + token == "Bearer" + [' '] + token;
    SplitWithoutSeparator(token, ' ');
    SplitAfterPiece(token, ' ', rest);
    SplitAfterPiece("Bearer", ' ', token + " " + rest);
    assert "Bearer " + token + " " + rest == "Bearer" + [' '] + (token + [' '] + rest);
  }

  /** "Bearer" alone passes the prefix check but carries no token. */
  lemma BareBearerHasNoToken()
    ensures StartsWith("Bearer", "Bearer")
    ensures BearerToken("Bearer") == None
  {
    SplitWithoutSeparator("Bearer", ' ');
  }

  /** `protect`: `authorization` is the header (`None` when absent) and
      `verify` what checking a token, or the lack of one, gives. */
  function Protect(authorization: Option<string>, verify: Option<string> -> Verification): (r: Outcome)
    ensures r == Respond(401, NoTokenMessage) <==>
      authorization.None? || !StartsWith(authorization.value, "Bearer")
    ensures r.Next? <==>
      authorization.Some? && StartsWith(authorization.value, "Bearer")
      && verify(BearerToken(authorization.value)).Verified?
    ensures r.Next? ==> r.user == verify(BearerToken(authorization.value)).user
    ensures r.Respond? ==> r.status == 401
  {
    if authorization.None? || authorization.value == "" || !StartsWith(authorization.value, "Bearer") then
      Respond(401, NoTokenMessage)
    else
      match verify(BearerToken(authorization.value))
      case Verified(user) => Next(user)
      case Rejected(name) =>
        Respond(401, if name == "TokenExpiredError" then ExpiredMessage else InvalidTokenMessage)
  }

  /** A rejected token is answered "expired" exactly for an expired one. */
  lemma RejectedTokenMessage(authorization: string, verify: Option<string> -> Verification)
    requires StartsWith(authorization, "Bearer")
    requires verify(BearerToken(authorization)).Rejected?
    ensures var name := verify(BearerToken(authorization)).errorName;
      && (name == "TokenExpiredError" ==> Protect(Some(authorization), verify) == Respond(401, ExpiredMessage))
      && (name != "TokenExpiredError" ==> Protect(Some(authorization), verify) == Respond(401, InvalidTokenMessage))
  {
  }

  /** `admin`. */
  function Admin(user: Option<User>): (r: Outcome)
    ensures r.Next? <==> user.Some? && user.value.role == "admin"
    ensures r.Next? ==> r.user == user
    ensures r.Respond? ==> r == Respond(403, NotAdminMessage)
  {
    if user.Some? && user.value.role == "admin" then Next(user) else Respond(403, NotAdminMessage)
  }

  /** `superadmin`. */
  function Superadmin(user: Option<User>): (r: Outcome)
    ensures r.Next? <==> user.Some? && user.value.role == "superadmin"
    ensures r.Next? ==> r.user == user
    ensures r.Respond? ==> r == Respond(403, NotSuperadminMessage)
  {
    if user.Some? && user.value.role == "superadmin" then Next(user) else Respond(403, NotSuperadminMessage)
  }

  /** `requireRole(roles)`; called without roles it gets the empty list. */
  function RequireRole(roles: seq<string>, user: Option<User>): (r: Outcome)
    ensures r.Next? <==> user.Some? && user.value.role in roles
    ensures r.Next? ==> r.user == user
    ensures r.Respond? ==> r == Respond(403, AccessDeniedMessage)
  {
    if user.Some? && user.value.role in roles then Next(user) else Respond(403, AccessDeniedMessage)
  }

  /** The two fixed guards let nobody through both: an admin is not a
      superadmin, and the default role list lets nobody through. */
  lemma GuardsExclusive(user: Option<User>)
    ensures !(Admin(user).Next? && Superadmin(user).Next?)
    ensures RequireRole([], user) == Respond(403, AccessDeniedMessage)
  {
  }

  /** `requireRole(["admin"])` lets through the same users as `admin`. */
  lemma RequireAdminRoleAgreesWithAdmin(user: Option<User>)
    ensures RequireRole(["admin"], user).Next? <==> Admin(user).Next?
  {
  }
}
