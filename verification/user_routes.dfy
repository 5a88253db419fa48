/**
  The five user handlers of userRoutes.js, each as it runs after
  `authenticateJWT` has attached the claims `user`. Every decision depends on
  the role alone; read-all has no role check of its own.
 */
module UserRoutes {
  import opened Domain
  import opened Roles

  function Create(user: Claims, name: string, email: string, password: string, fails: bool): (r: Reply)
    ensures r == Denied <==> ParseRole(user.role) != SuperAdmin
    ensures r != Denied ==> r.queries == [InsertUser(name, email, password)]
    ensures r != Denied ==> r.status == (if fails then InternalError else Ok)
  {
    if !SuperAdminOnly(user.role) then Denied
    else Execute(InsertUser(name, email, password), fails, InternalError)
  }

  /** No role check: whatever passed the token gate reaches the store. */
  function ReadAll(user: Claims, fails: bool): (r: Reply)
    ensures r.queries == [SelectUsers]
    ensures r.status == (if fails then InternalError else Ok)
  {
    Execute(SelectUsers, fails, InternalError)
  }

  /** A store error is answered with 404 here, not 500. */
  function ReadOne(user: Claims, id: Id, fails: bool): (r: Reply)
    ensures r == Denied <==> ParseRole(user.role) !in {Admin, SuperAdmin}
    ensures r != Denied ==> r.queries == [SelectUser(id)] && r.status == (if fails then NotFound else Ok)
  {
    if !AdminOrSuperAdmin(user.role) then Denied
    else Execute(SelectUser(id), fails, NotFound)
  }

  function Update(user: Claims, id: Id, name: string, email: string, fails: bool): (r: Reply)
    ensures r == Denied <==> ParseRole(user.role) !in {Admin, SuperAdmin}
    ensures r != Denied ==> r.queries == [UpdateUser(id, name, email)]
    ensures r != Denied ==> r.status == (if fails then InternalError else Ok)
  {
    if !AdminOrSuperAdmin(user.role) then Denied
    else Execute(UpdateUser(id, name, email), fails, InternalError)
  }

  function Delete(user: Claims, id: Id, fails: bool): (r: Reply)
    ensures r == Denied <==> ParseRole(user.role) != SuperAdmin
    ensures r != Denied ==> r.queries == [DeleteUser(id)] && r.status == (if fails then InternalError else Ok)
  {
    if !SuperAdminOnly(user.role) then Denied
    else Execute(DeleteUser(id), fails, InternalError)
  }

  /**
    Reading or updating user `id` never compares the requester's id with `id`:
    two requesters with the same role get the same status for any two ids.
   */
  lemma RoleAloneDecides(u1: Claims, u2: Claims, id1: Id, id2: Id, name: string, email: string, fails: bool)
    requires u1.role == u2.role
    ensures ReadOne(u1, id1, fails).status == ReadOne(u2, id2, fails).status
    ensures Update(u1, id1, name, email, fails).status == Update(u2, id2, name, email, fails).status
    ensures Delete(u1, id1, fails).status == Delete(u2, id2, fails).status
  {
  }

  /** Once past the role check, a store error is 404 for read-one and 500 for create, update and delete. */
  lemma StoreErrorStatus(user: Claims, id: Id, name: string, email: string, password: string)
    requires ParseRole(user.role) == SuperAdmin
    ensures ReadOne(user, id, true).status.Code() == 404
    ensures Create(user, name, email, password, true).status.Code() == 500
    ensures Update(user, id, name, email, true).status.Code() == 500
    ensures Delete(user, id, true).status.Code() == 500
    ensures ReadAll(user, true).status.Code() == 500
  {
  }
}
