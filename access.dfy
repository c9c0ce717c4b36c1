/** The permission check `canAccess` of `src/hooks/useAuth.ts`. */
module Access {

  datatype Action = Crud | Approve | Read

  /** `canAccess(action)` for the current role, given as the string it is
      compared against; a role outside the three is denied everything. */
  predicate CanAccess(role: string, action: Action) {
    if role == "analyst" then action == Crud || action == Read
    else if role == "partner" then action == Approve || action == Read
    else if role == "lp" then action == Read
    else false
  }

  /** The access matrix written out as the set of permitted pairs. */
  const Granted: set<(string, Action)> := {
    ("analyst", Crud), ("analyst", Read),
    ("partner", Approve), ("partner", Read),
    ("lp", Read)
  }

  lemma CanAccessIsMatrix(role: string, action: Action)
    ensures CanAccess(role, action) <==> (role, action) in Granted
  {
  }

  /** Reading is allowed for each of the three roles. */
  lemma ReadForEveryRole(role: string)
    ensures CanAccess(role, Read) <==> role in {"analyst", "partner", "lp"}
  {
  }

  /** Approving belongs to partners alone, create/update/delete to analysts alone. */
  lemma ApproveAndCrudAreExclusive(role: string)
    ensures CanAccess(role, Approve) <==> role == "partner"
    ensures CanAccess(role, Crud) <==> role == "analyst"
  {
  }

  /** Limited partners may only read. */
  lemma LpReadsOnly(action: Action)
    ensures CanAccess("lp", action) <==> action == Read
  {
  }
}
