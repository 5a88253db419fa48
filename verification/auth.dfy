/**
  The token gate `authenticateJWT` (authMiddleware.js). Signature, format and
  expiry checking are the opaque `verify`: it yields the decoded claims or
  nothing.
 */
module Auth {
  import opened Domain
  import opened Roles

  /** The four ways the gate can end. Only `Admitted` calls `next()`. */
  datatype Gate =
    | NoToken
    | InvalidToken
    | NotSuperAdmin(claims: Claims)
    | Admitted(claims: Claims)
  {
    /** The status of the reply the gate sends when it stops the request. */
    function Status(): (s: Status)
      requires !Admitted?
      ensures s == Unauthorized <==> NoToken?
      ensures s == Forbidden <==> !NoToken?
    {
      if NoToken? then Unauthorized else Forbidden
    }
  }

  function Authenticate(header: Option<string>, verify: string -> Option<Claims>): (g: Gate)
    ensures g.NoToken? <==> !Truthy(header)
    ensures g.InvalidToken? <==> Truthy(header) && verify(header.value).None?
    ensures g.Admitted? <==>
              Truthy(header) && verify(header.value).Some?
              && ParseRole(verify(header.value).value.role) == SuperAdmin
    ensures (g.Admitted? || g.NotSuperAdmin?) ==> g.claims == verify(header.value).value
  {
    if !Truthy(header) then NoToken
    else match verify(header.value)
      case None => InvalidToken
      case Some(user) =>
        if user.role != SuperAdminName then NotSuperAdmin(user) else Admitted(user)
  }

  /** Without a token the verifier is never consulted: the outcome is 401 whatever it would say. */
  lemma NoTokenSkipsVerification(header: Option<string>, v1: string -> Option<Claims>, v2: string -> Option<Claims>)
    requires !Truthy(header)
    ensures Authenticate(header, v1) == Authenticate(header, v2) == NoToken
    ensures Authenticate(header, v1).Status().Code() == 401
  {
  }

  /**
    Precedence: a missing token is 401 whatever the claims would be; a failed
    verification is 403 whatever role the payload would claim; and only then
    is the role checked.
   */
  lemma GatePrecedence(header: Option<string>, verify: string -> Option<Claims>)
    ensures !Truthy(header) ==> Authenticate(header, verify).Status() == Unauthorized
    ensures Truthy(header) && verify(header.value).None? ==>
              Authenticate(header, verify).Status() == Forbidden
    ensures Truthy(header) && verify(header.value).Some?
            && ParseRole(verify(header.value).value.role) != SuperAdmin ==>
              Authenticate(header, verify) == NotSuperAdmin(verify(header.value).value)
  {
  }
}
