/** The session store of `src/store/user.ts`: a role and an authenticated flag
    derived from one persisted token (the browser's `localStorage['jwt']`). */
module Session {
  import opened Js

  datatype Role = Analyst | Partner | Lp

  /** The string a role is stored and transmitted as. */
  function RoleName(r: Role): string {
    match r
    case Analyst => "analyst"
    case Partner => "partner"
    case Lp => "lp"
  }

  /** `getRole()`: the role a stored token (None when absent) stands for. */
  function GetRole(jwt: Option<string>): (r: Role)
    ensures r == Partner <==> jwt == Some("partner")
    ensures r == Lp <==> jwt == Some("lp")
  {
    if jwt == Some("partner") then Partner
    else if jwt == Some("lp") then Lp
    else Analyst
  }

  /** `getIsAuthenticated()`: a token is stored and is not empty. */
  predicate GetIsAuthenticated(jwt: Option<string>) {
    jwt != None && jwt != Some("")
  }

  /** Reading back a stored role name yields that role, authenticated. */
  lemma RoleRoundTrip(r: Role)
    ensures GetRole(Some(RoleName(r))) == r
    ensures GetIsAuthenticated(Some(RoleName(r)))
  {
  }

  /** Any stored token other than "partner" and "lp", even a malformed one,
      reads as an analyst; it counts as a login unless it is empty. */
  lemma UnknownTokenIsAnalyst(t: string)
    requires t != "partner" && t != "lp"
    ensures GetRole(Some(t)) == Analyst
    ensures GetIsAuthenticated(Some(t)) <==> t != ""
  {
  }

  class UserStore {
    /** The persisted token, None when the key is absent. */
    var jwt: Option<string>
    var role: Role
    var isAuthenticated: bool

    /** The in-memory session agrees with what storage would give on a reload. */
    ghost predicate Consistent()
      reads this
    {
      role == GetRole(jwt) && isAuthenticated == GetIsAuthenticated(jwt)
    }

    /** Store creation: both fields derived from whatever is stored. */
    constructor (stored: Option<string>)
      ensures jwt == stored && Consistent()
    {
      jwt := stored;
      role := GetRole(stored);
      isAuthenticated := GetIsAuthenticated(stored);
    }

    /** `setRole(r)`: persist first, then update memory. */
    method SetRole(r: Role)
      modifies this
      ensures jwt == Some(RoleName(r))
      ensures role == r && isAuthenticated
      ensures Consistent()
    {
      jwt := Some(RoleName(r));
      role, isAuthenticated := r, true;
    }

    /** `logout()`: remove the token, then reset memory. */
    method Logout()
      modifies this
      ensures jwt == None && role == Analyst && !isAuthenticated
      ensures Consistent()
    {
      jwt := None;
      role, isAuthenticated := Analyst, false;
    }
  }

  /** Logging in as partner, reading back, logging out twice. */
  method LoginLogoutScenario(s: UserStore)
    modifies s
    ensures s.jwt == None && s.role == Analyst && !s.isAuthenticated
  {
    s.SetRole(Partner);
    assert s.role == Partner && s.isAuthenticated && GetRole(s.jwt) == Partner;
    s.Logout();
    var afterFirst := (s.jwt, s.role, s.isAuthenticated);
    s.Logout();
    assert (s.jwt, s.role, s.isAuthenticated) == afterFirst;
  }
}
