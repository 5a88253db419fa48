/**
  The standalone token issuer of tokengenerate.js: one hard-wired account, a
  `/login` decision, and the claims `generateToken` signs. Signing itself is
  not modelled; the issued payload is.
 */
module Issuer {
  import opened Domain
  import opened Roles

  /** The only account the issuer knows. */
  const Account := Claims("1", "ayush", SuperAdminName, "ayush@gmail.com", "ayush@123")

  /** `expiresIn: '1h'`, in seconds. */
  const TokenLifetime := 3600

  /** The signed payload: the claims plus the issue and expiry instants, in seconds. */
  datatype Payload = Payload(claims: Claims, iat: int, exp: int)

  datatype LoginOutcome = MissingCredentials | InvalidCredentials | Issued(payload: Payload)
  {
    /** The status `/login` answers with: 400, 401, or 200 with the token. */
    function Status(): (s: Status)
      ensures s == Ok <==> Issued?
      ensures s == BadRequest <==> MissingCredentials?
      ensures s == Unauthorized <==> InvalidCredentials?
    {
      match this
      case MissingCredentials => BadRequest
      case InvalidCredentials => Unauthorized
      case Issued(_) => Ok
    }
  }

  /** The payload of `generateToken(user)` issued at second `now`. */
  function GenerateToken(user: Claims, now: int): (p: Payload)
    ensures p.claims == user
    ensures p.iat == now && p.exp == now + TokenLifetime
  {
    Payload(Claims(user.id, user.name, user.role, user.email, user.password), now, now + TokenLifetime)
  }

  function Login(email: Option<string>, password: Option<string>, now: int): (r: LoginOutcome)
    ensures r.Status() == BadRequest <==> !Truthy(email) || !Truthy(password)
    ensures r.Status() == Unauthorized <==> Truthy(email) && Truthy(password) && email.value != Account.email
    ensures r.Issued? <==> Truthy(password) && email == Some(Account.email)
    ensures r.Issued? ==> r.payload.exp - r.payload.iat == TokenLifetime
  {
    if !Truthy(email) || !Truthy(password) then MissingCredentials
    else if email.value != Account.email then InvalidCredentials
    else Issued(GenerateToken(Account, now))
  }

  /** The password is never compared: with the stored email, any two non-empty passwords give the same outcome. */
  lemma PasswordNeverCompared(email: Option<string>, p1: string, p2: string, now: int)
    requires p1 != "" && p2 != ""
    ensures Login(email, Some(p1), now) == Login(email, Some(p2), now)
    ensures email == Some(Account.email) ==> Login(email, Some(p1), now).Issued?
  {
  }

  /**
    The claims come from the stored account, never from the request: every
    issued token carries that account's id, name, email, password and the
    role Super Admin.
   */
  lemma IssuedClaimsAreStored(email: Option<string>, password: Option<string>, now: int)
    ensures var r := Login(email, password, now);
            r.Issued? ==> r.payload.claims == Account && ParseRole(r.payload.claims.role) == SuperAdmin
  {
  }
}
