/**
  Roles. Claims and user rows carry the role as an open string and every
  check compares it with a string literal; `Role` is the closed reading of
  such a string, used to state what the string comparisons mean.
 */
module Roles {

  const SuperAdminName := "Super Admin"
  const AdminName := "Admin"

  datatype Role = SuperAdmin | Admin | Other(name: string)

  /** A role value that a role string can denote: `Other` never hides a known name. */
  predicate WellFormed(r: Role) {
    r.Other? ==> r.name != SuperAdminName && r.name != AdminName
  }

  function RoleName(r: Role): string {
    match r
    case SuperAdmin => SuperAdminName
    case Admin => AdminName
    case Other(n) => n
  }

  function ParseRole(s: string): (r: Role)
    ensures WellFormed(r)
    ensures RoleName(r) == s
  {
    if s == SuperAdminName then SuperAdmin
    else if s == AdminName then Admin
    else Other(s)
  }

  /** The gate `role !== 'Super Admin'` answers 403 otherwise. */
  predicate SuperAdminOnly(role: string)
  {
    role == SuperAdminName
  }

  /** The gate `role !== 'Admin' && role !== 'Super Admin'` answers 403 otherwise. */
  predicate AdminOrSuperAdmin(role: string)
  {
    role == AdminName || role == SuperAdminName
  }
}
