/** The mock login endpoint `POST /login` of `server/routes/auth.ts`. */
module AuthRoute {
  import opened Js
  import Session

  /** The one response the handler sends: a token, or a 400 with an error body. */
  datatype LoginResponse = TokenIssued(token: string) | BadRequest(status: int, error: string)

  const ValidRoles: seq<string> := ["analyst", "partner", "lp"]

  /** The handler for a request whose body carries `role` (None when the field
      is missing or not a string). It keeps no state: the response is a
      function of the body alone. */
  function Login(role: Option<string>): (r: LoginResponse)
    ensures r.TokenIssued? <==> role.Some? && role.value in ValidRoles
    ensures r.TokenIssued? ==> r.token == role.value
    ensures r.BadRequest? ==> r == BadRequest(400, "Invalid role")
  {
    if role.None? || role.value !in ValidRoles then BadRequest(400, "Invalid role")
    else TokenIssued(role.value)
  }

  /** Every session role logs in, and the issued token, once stored by the
      session store, reads back as that role. */
  lemma IssuedTokenRestoresRole(r: Session.Role)
    ensures Login(Some(Session.RoleName(r))) == TokenIssued(Session.RoleName(r))
    ensures Session.GetRole(Some(Login(Some(Session.RoleName(r))).token)) == r
  {
  }

  /** A role name in another letter case is refused. */
  lemma CaseMatters()
    ensures Login(Some("Partner")) == BadRequest(400, "Invalid role")
  {
  }
}
