# User_Feed authorization engine, modelled in Dafny

User_Feed is a small Express service. It guards CRUD on users and feeds with a
JWT gate, per-route role checks and one data-dependent rule for deleting a
feed. This project models that decision logic as pure functions over
immutable data. An in-memory `Store` stands in for the MySQL tables.

- `Domain` (domain.dfy) defines the shared types: token claims, table rows
  (`Feed`, `User`, `Grant`), the `Store`, and the statements a handler issues.
  It also defines `Reply`, which is a status plus the statements issued, in order.
- `Roles` (roles.dfy) has the role strings `'Super Admin'` and `'Admin'`, the
  closed `Role` type used to state what the string comparisons mean, and the
  two string gates the routes use.
- `Auth` (auth.dfy) is `authenticateJWT`. Signature, format and expiry checks
  are an opaque `verify: string -> Option<Claims>` parameter.
- `FeedRoutes` (feed_routes.dfy) holds the five feed handlers. Among them is
  the delete resolver: a role check, then an existence check, then a scan of
  every other admin's `can_delete = 1` grant on the feed, then the DELETE.
- `UserRoutes` (user_routes.dfy) holds the five user handlers and their
  mapping from store errors to statuses.
- `Issuer` (issuer.dfy) is the standalone `/login` decision and the payload
  `generateToken` signs.
- `AuditLog` (audit_log.dfy) builds the log line of `logMiddleware`.
- `App` (app.dfy) composes the pieces: logging, then the token gate, then the
  route handler. It proves what the composition means. In particular, every
  route's effective role set is {Super Admin}, so the handlers' `'Admin'`
  branches are unreachable.

The feed-delete rule is kept as the code has it. A Super Admin is refused
(403) when any other user with role `'Admin'` holds a `can_delete = 1` grant
on the feed.

The model follows what the code does, including where it differs from the code's own comments and messages:
- The comment at userRoutes.js:33 says reading all users is for Super Admin, but the handler at userRoutes.js:34-35 has no role check. Only the token gate applies.
- A store error on read-one user is answered with status 404 and the message 'Internal Server Error' (userRoutes.js:64).
- The comments at userRoutes.js:48 and :71 mention "the user itself", but no user route compares the requester's id with the target id.
- The logging middleware is mounted before the routers (app.js:21-26), and `req.user` is set only inside the token gate. So every request that reaches `logMiddleware` is logged before any authorization, refused ones included, with who = `Anonymous`. Two kinds of request never reach it; see below.
- The delete route has no `catch` for its awaited lookups (feedRoutes.js:109-124). What follows a failure there depends on the Express version; see below.

## Model

| member | source | states |
|---|---|---|
| Auth.Authenticate | authMiddleware.js:8-30 | An absent or empty header gives 401. A token that does not verify gives 403. The request is admitted with the verified claims iff the token verifies and its role is exactly Super Admin. |
| Auth.NoTokenSkipsVerification | authMiddleware.js:9-13 | Without a token the result is 401 whatever the verifier would answer, so verification is not attempted. |
| Auth.GatePrecedence | authMiddleware.js:9-28 | The checks run in a fixed order: missing token (401), then invalid token (403), then a role other than Super Admin (403). |
| FeedRoutes.Create | feedRoutes.js:8-28 | A role other than Super Admin gets 403 with no statement issued. Otherwise one INSERT is issued, and the reply is 500 on a store error and 200 otherwise. |
| FeedRoutes.ReadAll | feedRoutes.js:31-49 | Exactly the roles Admin and Super Admin get past the check. Any other role gets 403 before the store. Past the check, one SELECT is issued, and the reply is 500 on a store error and 200 otherwise. |
| FeedRoutes.ReadOne | feedRoutes.js:52-72 | Exactly the roles Admin and Super Admin get past the check, which issues one SELECT by id. The reply is 500 on a store error and 200 otherwise, also when no feed has that id. |
| FeedRoutes.Update | feedRoutes.js:75-97 | Only Super Admin gets past the check. Any other role gets 403 with no statement issued. Past the check, one UPDATE is issued, and the reply is 500 on a store error and 200 otherwise. |
| FeedRoutes.AdminIds | feedRoutes.js:119 | The admin list holds exactly the ids of the user rows whose role is 'Admin'. |
| FeedRoutes.Scan | feedRoutes.js:121-130 | The loop blocks iff some listed admin other than the requester holds a can_delete = 1 grant on this feed. It only probes grants on this feed, for admins other than the requester. |
| FeedRoutes.ScanDecidesBlocked | feedRoutes.js:119-130 | Listing the admins and scanning them decides exactly the reference rule (an 'Admin' user, not the requester, with a delete grant on the feed). |
| FeedRoutes.Delete | feedRoutes.js:100-145 | The reply is 403 iff the role is not Super Admin or another admin's grant blocks, and 404 iff the feed is missing. The DELETE is issued iff all three checks pass, and then the reply is 500 on a store error and 200 otherwise. Lookups come first in a fixed order and the DELETE is the only write, issued last. |
| FeedRoutes.ApplyDeletes | feedRoutes.js:134-144 | A reply that is not 200 leaves the feed table unchanged. A 200 reply removes exactly the rows its DELETE statements name, and keeps every other row as it was. |
| FeedRoutes.DeleteChecksRoleFirst | feedRoutes.js:103-116 | A non-Super-Admin gets 403 whatever the tables hold, even when the feed does not exist. |
| FeedRoutes.MissingFeedIsNotFound | feedRoutes.js:112-116 | A missing feed gives 404 after one lookup. Changing the users or the grants changes nothing. |
| FeedRoutes.ScanDependsOnlyOnAdminGrants | feedRoutes.js:121-128 | Two scans agree whenever the grant sets agree on each non-requester admin's delete grant for this feed. |
| FeedRoutes.InertGrantsNeverBlock | feedRoutes.js:119-128 | Adding certain grants leaves the reply unchanged. These are grants with can_delete other than 1, grants on another feed, grants of the requester, and grants of users whose role is not 'Admin'. |
| FeedRoutes.OwnGrantNeverBlocks | feedRoutes.js:122 | The requester's own delete grant never blocks the requester. |
| FeedRoutes.BlockingIsMonotone | feedRoutes.js:119-128 | More admin rows or more grants can turn an allowed delete into a 403, but never the reverse. |
| FeedRoutes.DecisionIgnoresUserOrder | feedRoutes.js:119-121 | The status does not depend on the order in which the user table enumerates its rows. |
| FeedRoutes.DeleteEffect | feedRoutes.js:103-144 | Only a 200 reply removes the feed, and it removes exactly that feed. Every earlier return leaves the table unchanged. |
| FeedRoutes.GrantScenario | feedRoutes.js:100-145 | Feed 7 exists and admin 2 has a delete grant on it, so Super Admin 1 gets 403. After the grant is removed, the same request gets 200 and the feed is gone. |
| UserRoutes.Create | userRoutes.js:11-31 | Only Super Admin gets past the check. Otherwise one INSERT is issued, and the reply is 500 on a store error and 200 otherwise. |
| UserRoutes.ReadAll | userRoutes.js:34-46 | There is no role check. The SELECT is issued for every caller, and the reply is 500 on a store error and 200 otherwise. |
| UserRoutes.ReadOne | userRoutes.js:49-69 | Exactly Admin and Super Admin get past the check, which issues one SELECT by id. The reply is 404 on a store error and 200 otherwise. |
| UserRoutes.Update | userRoutes.js:72-93 | Exactly Admin and Super Admin get past the check, which issues one UPDATE. The reply is 500 on a store error and 200 otherwise. |
| UserRoutes.Delete | userRoutes.js:96-116 | Only Super Admin gets past the check. Otherwise one DELETE is issued, and the reply is 500 on a store error and 200 otherwise. |
| UserRoutes.RoleAloneDecides | userRoutes.js:48-101 | The requester's id is never compared with the target id. Two requesters with the same role get the same status for any two ids. |
| UserRoutes.StoreErrorStatus | userRoutes.js:23-111 | Past the check, a store error gives 404 for read-one and 500 for create, read-all, update and delete. |
| Issuer.GenerateToken | tokengenerate.js:17-21 | The payload carries the user's claims unchanged. The expiry is the issue time plus 3600 seconds. |
| Issuer.Login | tokengenerate.js:23-36 | A missing or empty email or password gives 400. An email other than the stored one gives 401. A token is issued iff the email is the stored one and a password is present. |
| Issuer.PasswordNeverCompared | tokengenerate.js:30-35 | Any two non-empty passwords give the same outcome, and the stored email with any non-empty password gets a token. |
| Issuer.IssuedClaimsAreStored | tokengenerate.js:7-34 | An issued token carries the stored account's claims, never request fields, so its role is Super Admin. |
| AuditLog.Who | logMiddleware.js:9 | The result is never empty. It is the user's name when a user with a non-empty name is present, and 'Anonymous' otherwise. |
| AuditLog.Entry | logMiddleware.js:9 | The line is made of the timestamp, " - ", who, " - ", the method, " ", the url and a final newline. Each field is copied verbatim into its own slice. |
| AuditLog.EntryIsOneLine | logMiddleware.js:9 | When no field holds a newline, the entry's only newline is its last character. |
| App.RouteGateMatchesTable | userRoutes.js:14-101 | It also covers the feed gates (feedRoutes.js:11-105) and the log route, which has no check (logRoutes.js:10). A handler refuses before the store exactly the roles its requirement leaves out. Those requirements are {Super Admin} for create and delete, {Admin, Super Admin} for reads and user update, and any role for read-all users and the log. |
| App.AdminBranchesUnreachable | authMiddleware.js:23-28 | Every request the token gate admits has role Super Admin and passes the handler's own check, so no route-level 403 can be reached. |
| App.AdminTokenRefusedEverywhere | authMiddleware.js:23-25 | A token with role 'Admin' gets 403 with no statement issued, on every route. |
| App.EffectiveRequirementIsSuperAdmin | authMiddleware.js:9-28 | A request reaches the store or gets 200 only with a present token that verifies to role Super Admin. |
| App.RefusedRequestsNeverReachStore | authMiddleware.js:11-25 | A request the token gate stops issues no statement and gets 401 or 403. |
| App.IssuedTokenIsAdmitted | tokengenerate.js:17-35 | A token from a successful login passes the gate with the stored account's claims, as long as the verifier decodes it to the signed claims. |
| App.LoggedAnonymouslyBeforeAuthorization | app.js:20-26 | Every request that reaches `logMiddleware` is logged, refused ones included, with who = 'Anonymous', and the line does not depend on the token. When the append succeeds, the reply is exactly the routed reply. When it throws, the reply is 500 with no statement issued. |
| App.Handle | app.js:24-26 | A route handler never answers 401. It issues a statement only for a role its requirement admits. Reading the log file (logRoutes.js:14-20) touches no table, and its reply is 200 unless the read fails, in which case it is 500. |
| App.Dispatch | feedRoutes.js:8 | Each route runs the token gate before its handler, as at feedRoutes.js:8, userRoutes.js:34 and logRoutes.js:10. The reply is 401 iff no token is present. A request the gate stops issues no statement. An admitted request gets exactly its handler's reply. |
| App.Serve | logMiddleware.js:6-21 | The line is built from the timestamp, method and url with who = 'Anonymous', before any gate runs. It is written iff the append does not throw. A throwing append gives 500 without routing. Otherwise `next()` hands the request on unchanged. The meaning of this composition is stated by App.LoggedAnonymouslyBeforeAuthorization. |
| Domain.Execute | feedRoutes.js:20-27 | This is the common `pool.query` callback: exactly one statement is issued, and the reply is 200 iff the store reports no error, else the route's error status. |

## Left out

- HTTP routing and `req`/`res`. Each route is a constructor of `App.Route`, and each handler returns a `Reply`.
- `express.json()` and `cors()` are mounted before `logMiddleware` (app.js:17-18), and the model starts at `logMiddleware`. Two kinds of request stop there, neither logged nor authenticated. `cors()` answers an OPTIONS preflight itself with 204. `express.json()` rejects a malformed or oversized JSON body with 400 or 413 through `next(err)`. For example, `POST /feeds` with no Authorization header and the body `{` gets 400 and no log line, while `App.Serve` would log it and answer 401.
- SQL text and the MySQL pool. A handler records which statement it issues; only the DELETE of a feed is interpreted against the store (`FeedRoutes.ApplyDeletes`). The insert and update semantics belong to MySQL. The route's final store error is the `fails` parameter.
- The parenthesised `('SQL', [params])` expressions evaluate to the parameter array alone, so the statement text never reaches the pool. That is query construction, which is not modelled. The model records the statement each handler intends.
- The awaited lookups of the delete route (feedRoutes.js:109-124) run in an `async` handler with no `catch`. What a failure there does depends on the Express and Node versions, which the repository's files do not fix. Under Express 4 the rejection is unhandled: no response is sent, and on Node 15 or later the process ends. Under Express 5 the rejection reaches the error handler, which answers 500. The model assumes those lookups succeed. The connection taken at feedRoutes.js:109 is never released, which is not modelled either.
- Role comparison in MySQL: `WHERE role = 'Admin'` follows the table's collation, which is often case-insensitive and ignores trailing spaces. The model uses exact string equality.
- Ids: token ids are strings (tokengenerate.js:8) while table ids are numbers, and `admin.id !== req.user.id` never equates a string with a number. The model uses a single `Id` type with equality. So in the deployed code the requester-skip may never fire.
- JWT signing, verification and expiry, and the two different secrets (`JWT_SECRET` versus `'your-secret-key'`). `verify` is a parameter, and `Issuer` returns the payload, not a signed string.
- Auth.Authenticate: claims are a record of strings. A payload that is not an object, or a role that is not a string, is not modelled. Either one would fail the `'Super Admin'` comparison and get 403.
- Issuer.Login: body fields are absent-or-string. Non-string JSON values (numbers, booleans) and their truthiness are not modelled. The clock is the `now` parameter, in seconds.
- AuditLog.Who: a non-string `name` claim is not modelled. The timestamp is a parameter, because the clock is external.
- bcrypt is imported but never used. The log directory creation, the append and the log-file read (logRoutes.js) are filesystem I/O. Reading the log is modelled only as 200 or 500 with no role check. A throwing `mkdirSync` or `appendFileSync` is the `logFails` parameter of `App.Serve`. The 500 it produces comes from Express's default error handler, whose body is not modelled.
- Process bootstrap (`listen`, port numbers) and async interleaving.
