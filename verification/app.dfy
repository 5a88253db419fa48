/**
  The application as app.js assembles it: the body parser and CORS handler,
  then the logging middleware, then the router for the path, whose every
  route runs `authenticateJWT` before its own handler. The model starts at
  the logging middleware. This module composes the pieces
  and states what the composition means.
 */
module App {
  import opened Domain
  import opened Roles
  import Auth
  import FeedRoutes
  import UserRoutes
  import Issuer
  import AuditLog

  /** The eleven routes, with the path parameter and body fields each handler reads. */
  datatype Route =
    | FeedCreate(title: string, content: string)
    | FeedReadAll
    | FeedReadOne(id: Id)
    | FeedUpdate(id: Id, title: string, content: string)
    | FeedDelete(id: Id)
    | UserCreate(name: string, email: string, password: string)
    | UserReadAll
    | UserReadOne(id: Id)
    | UserUpdate(id: Id, name: string, email: string)
    | UserDelete(id: Id)
    | LogRead

  /** `verb` and `url` are what the log line records; `authorization` is the header the token gate reads. */
  datatype Request = Request(verb: string, url: string, authorization: Option<string>, route: Route)

  /** The role set each handler's own check admits, independently of the token gate in front of it. */
  datatype Requirement = AnyRole | OneOf(roles: set<Role>)

  predicate Meets(req: Requirement, r: Role) {
    req.AnyRole? || r in req.roles
  }

  function RouteRequirement(route: Route): Requirement {
    match route
    case FeedCreate(_, _) => OneOf({SuperAdmin})
    case FeedReadAll => OneOf({Admin, SuperAdmin})
    case FeedReadOne(_) => OneOf({Admin, SuperAdmin})
    case FeedUpdate(_, _, _) => OneOf({SuperAdmin})
    case FeedDelete(_) => OneOf({SuperAdmin})
    case UserCreate(_, _, _) => OneOf({SuperAdmin})
    case UserReadAll => AnyRole
    case UserReadOne(_) => OneOf({Admin, SuperAdmin})
    case UserUpdate(_, _, _) => OneOf({Admin, SuperAdmin})
    case UserDelete(_) => OneOf({SuperAdmin})
    case LogRead => AnyRole
  }

  /** The handler behind `authenticateJWT`, given the claims it attached. `fails` is the store (or log file) error. */
  function Handle(route: Route, user: Claims, db: Store, fails: bool): (r: Reply)
    ensures r.status != Unauthorized
    ensures r.queries != [] ==> Meets(RouteRequirement(route), ParseRole(user.role))
    // reading the log file touches no table and has no role check
    ensures route.LogRead? ==> r.queries == [] && (r.status == Ok <==> !fails)
    ensures route.LogRead? && fails ==> r.status == InternalError
  {
    match route
    case FeedCreate(t, c) => FeedRoutes.Create(user, t, c, fails)
    case FeedReadAll => FeedRoutes.ReadAll(user, fails)
    case FeedReadOne(id) => FeedRoutes.ReadOne(user, id, fails)
    case FeedUpdate(id, t, c) => FeedRoutes.Update(user, id, t, c, fails)
    case FeedDelete(id) => FeedRoutes.Delete(user, id, db, fails)
    case UserCreate(n, e, p) => UserRoutes.Create(user, n, e, p, fails)
    case UserReadAll => UserRoutes.ReadAll(user, fails)
    case UserReadOne(id) => UserRoutes.ReadOne(user, id, fails)
    case UserUpdate(id, n, e) => UserRoutes.Update(user, id, n, e, fails)
    case UserDelete(id) => UserRoutes.Delete(user, id, fails)
    case LogRead => Reply(if fails then InternalError else Ok, [])
  }

  /** The token gate, then the handler. */
  function Dispatch(req: Request, verify: string -> Option<Claims>, db: Store, fails: bool): (r: Reply)
    ensures r.status == Unauthorized <==> !Truthy(req.authorization)
    ensures !Auth.Authenticate(req.authorization, verify).Admitted? ==> r.queries == []
    ensures Auth.Authenticate(req.authorization, verify).Admitted? ==>
              r == Handle(req.route, Auth.Authenticate(req.authorization, verify).claims, db, fails)
  {
    var gate := Auth.Authenticate(req.authorization, verify);
    if gate.Admitted? then Handle(req.route, gate.claims, db, fails)
    else Reply(gate.Status(), [])
  }

  /** What one request leaves behind: the log line built, whether it reached the file, and the reply. */
  datatype Served = Served(entry: string, written: bool, reply: Reply)

  /**
    One request through the whole application. The log line is built before
    any router runs, while `req.user` is still unset. When creating the log
    directory or appending to the file throws (`logFails`), the error handler
    answers 500 and `next()` is never reached; otherwise `next()` follows.
   */
  function Serve(timestamp: string, req: Request, verify: string -> Option<Claims>, db: Store,
                 fails: bool, logFails: bool): (s: Served)
    ensures s.entry == AuditLog.Entry(timestamp, None, req.verb, req.url)
    ensures s.written <==> !logFails
    ensures logFails ==> s.reply == Reply(InternalError, [])
    ensures !logFails ==> s.reply == Dispatch(req, verify, db, fails)
  {
    var entry := AuditLog.Entry(timestamp, None, req.verb, req.url);
    if logFails then Served(entry, false, Reply(InternalError, []))
    else Served(entry, true, Dispatch(req, verify, db, fails))
  }

  // ----- what the composition means -----

  /** Each handler's own check refuses with no statement issued exactly the roles its requirement leaves out. */
  lemma RouteGateMatchesTable(route: Route, user: Claims, db: Store, fails: bool)
    ensures Handle(route, user, db, fails) == Denied <==> !Meets(RouteRequirement(route), ParseRole(user.role))
  {
  }

  /**
    Whatever the token gate admits passes every handler's own check: the
    route-level 403 and the handlers' 'Admin' branches are unreachable.
   */
  lemma AdminBranchesUnreachable(req: Request, verify: string -> Option<Claims>, db: Store, fails: bool)
    requires Auth.Authenticate(req.authorization, verify).Admitted?
    ensures var user := Auth.Authenticate(req.authorization, verify).claims;
            && ParseRole(user.role) == SuperAdmin
            && Meets(RouteRequirement(req.route), ParseRole(user.role))
            && Dispatch(req, verify, db, fails) == Handle(req.route, user, db, fails)
            && Dispatch(req, verify, db, fails) != Denied
  {
  }

  /** A token whose role is 'Admin' is refused with 403 on every route, before any statement. */
  lemma AdminTokenRefusedEverywhere(req: Request, verify: string -> Option<Claims>, db: Store, fails: bool)
    requires Truthy(req.authorization)
    requires verify(req.authorization.value).Some?
    requires verify(req.authorization.value).value.role == AdminName
    ensures Dispatch(req, verify, db, fails) == Denied
  {
  }

  /**
    The effective requirement of every route is {Super Admin}: a request
    reaches the store, or any 200, only with a present token that verifies to
    claims whose role is Super Admin.
   */
  lemma EffectiveRequirementIsSuperAdmin(req: Request, verify: string -> Option<Claims>, db: Store, fails: bool)
    ensures var r := Dispatch(req, verify, db, fails);
            (r.queries != [] || r.status == Ok) ==>
              && Truthy(req.authorization)
              && verify(req.authorization.value).Some?
              && ParseRole(verify(req.authorization.value).value.role) == SuperAdmin
  {
  }

  /** A request the token gate stops never reaches the store, and its status is 401 or 403. */
  lemma RefusedRequestsNeverReachStore(req: Request, verify: string -> Option<Claims>, db: Store, fails: bool)
    requires !Auth.Authenticate(req.authorization, verify).Admitted?
    ensures Dispatch(req, verify, db, fails).queries == []
    ensures Dispatch(req, verify, db, fails).status in {Unauthorized, Forbidden}
  {
  }

  /**
    A token the issuer hands out passes the gate, provided the verifier
    decodes it to the claims that were signed.
   */
  lemma IssuedTokenIsAdmitted(email: Option<string>, password: Option<string>, now: int,
                              token: string, verify: string -> Option<Claims>)
    requires Issuer.Login(email, password, now).Issued?
    requires token != ""
    requires verify(token) == Some(Issuer.Login(email, password, now).payload.claims)
    ensures Auth.Authenticate(Some(token), verify) == Auth.Admitted(Issuer.Account)
  {
  }

  /**
    Every request that reaches the logging middleware is logged, refused
    ones included, and always as
    'Anonymous': the line depends only on the timestamp, method and url,
    never on the token. When the append succeeds, logging never changes the
    reply; when it throws, every such request gets 500 before any gate runs and
    touches no table.
   */
  lemma LoggedAnonymouslyBeforeAuthorization(timestamp: string, req: Request, other: Option<string>,
                                             verify: string -> Option<Claims>, db: Store, fails: bool, logFails: bool)
    ensures var s := Serve(timestamp, req, verify, db, fails, logFails);
            var a := |timestamp| + 3;
            && s.entry[a..a + |AuditLog.Anonymous|] == AuditLog.Anonymous
            && s.entry == Serve(timestamp, req.(authorization := other), verify, db, fails, logFails).entry
            && (!logFails ==> s.written && s.reply == Dispatch(req, verify, db, fails))
            && (logFails ==> s.reply.status.Code() == 500 && s.reply.queries == [])
  {
  }
}
