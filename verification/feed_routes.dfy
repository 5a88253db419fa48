/**
  The five feed handlers of feedRoutes.js, each as it runs after
  `authenticateJWT` has attached the claims `user`. The interesting one is
  `Delete`: role gate, then existence, then a scan over every other admin's
  delete grant on the feed, and only then the DELETE statement.
 */
module FeedRoutes {
  import opened Domain
  import opened Roles

  function Create(user: Claims, title: string, content: string, fails: bool): (r: Reply)
    ensures r == Denied <==> ParseRole(user.role) != SuperAdmin
    ensures r != Denied ==> r.queries == [InsertFeed(title, content)]
    ensures r != Denied ==> r.status == (if fails then InternalError else Ok)
  {
    if !SuperAdminOnly(user.role) then Denied
    else Execute(InsertFeed(title, content), fails, InternalError)
  }

  function ReadAll(user: Claims, fails: bool): (r: Reply)
    ensures r == Denied <==> ParseRole(user.role) !in {Admin, SuperAdmin}
    ensures r != Denied ==> r.queries == [SelectFeeds] && r.status == (if fails then InternalError else Ok)
  {
    if !AdminOrSuperAdmin(user.role) then Denied
    else Execute(SelectFeeds, fails, InternalError)
  }

  /** A missing feed is not an error here: the reply is 200 with no rows. */
  function ReadOne(user: Claims, id: Id, fails: bool): (r: Reply)
    ensures r == Denied <==> ParseRole(user.role) !in {Admin, SuperAdmin}
    ensures r != Denied ==> r.queries == [SelectFeed(id)] && r.status == (if fails then InternalError else Ok)
  {
    if !AdminOrSuperAdmin(user.role) then Denied
    else Execute(SelectFeed(id), fails, InternalError)
  }

  function Update(user: Claims, id: Id, title: string, content: string, fails: bool): (r: Reply)
    ensures r == Denied <==> ParseRole(user.role) != SuperAdmin
    ensures r != Denied ==> r.queries == [UpdateFeed(id, title, content)]
    ensures r != Denied ==> r.status == (if fails then InternalError else Ok)
  {
    if !SuperAdminOnly(user.role) then Denied
    else Execute(UpdateFeed(id, title, content), fails, InternalError)
  }

  // ----- the delete resolver -----

  /** The ids returned by `SELECT id FROM User WHERE role = 'Admin'`, in table order. */
  function AdminIds(users: seq<User>): (ids: seq<Id>)
    ensures forall x :: x in ids <==> exists u :: u in users && u.role == AdminName && u.id == x
  {
    if |users| == 0 then []
    else
      var rest := AdminIds(users[1..]);
      assert forall u :: u in users <==> u == users[0] || u in users[1..];
      if users[0].role == AdminName then [users[0].id] + rest else rest
  }

  /** The admin `a` holds a `can_delete = 1` grant on the feed and is not the requester. */
  predicate BlocksDelete(a: Id, requester: Id, feedId: Id, grants: set<Grant>) {
    a != requester && Grant(feedId, a, 1) in grants
  }

  /**
    The reference rule: some user whose role is 'Admin', other than the
    requester, holds a `can_delete = 1` grant on this feed.
   */
  predicate DeleteBlocked(db: Store, requester: Id, feedId: Id) {
    exists u :: u in db.users && u.role == AdminName && BlocksDelete(u.id, requester, feedId, db.grants)
  }

  datatype ScanResult = ScanResult(blocked: bool, probes: seq<Query>)

  /**
    The `for (const admin of admins)` loop: skip the requester, probe the grant
    table for each other admin, stop at the first probe that finds a row.
   */
  function Scan(admins: seq<Id>, requester: Id, feedId: Id, grants: set<Grant>): (r: ScanResult)
    ensures r.blocked <==> exists a :: a in admins && BlocksDelete(a, requester, feedId, grants)
    ensures forall i :: 0 <= i < |r.probes| ==>
              r.probes[i].SelectGrant? && r.probes[i].feedId == feedId
              && r.probes[i].userId in admins && r.probes[i].userId != requester
    ensures |r.probes| <= |admins|
  {
    if |admins| == 0 then ScanResult(false, [])
    else
      var a := admins[0];
      assert forall x :: x in admins <==> x == a || x in admins[1..];
      if a != requester then
        if Grant(feedId, a, 1) in grants then
          assert BlocksDelete(a, requester, feedId, grants);
          ScanResult(true, [SelectGrant(feedId, a)])
        else
          var rest := Scan(admins[1..], requester, feedId, grants);
          ScanResult(rest.blocked, [SelectGrant(feedId, a)] + rest.probes)
      else Scan(admins[1..], requester, feedId, grants)
  }

  /** The admin scan decides exactly the reference rule. */
  lemma ScanDecidesBlocked(db: Store, requester: Id, feedId: Id)
    ensures Scan(AdminIds(db.users), requester, feedId, db.grants).blocked <==> DeleteBlocked(db, requester, feedId)
  {
  }

  /**
    DELETE /feeds/:id. A non-Super-Admin is refused before anything is read; a
    missing feed is 404 before the admin list is read; another admin's
    delete grant is 403; only then is the DELETE issued.
   */
  function Delete(user: Claims, id: Id, db: Store, fails: bool): (r: Reply)
    ensures r == Denied <==> ParseRole(user.role) != SuperAdmin
    ensures r.status == NotFound <==> ParseRole(user.role) == SuperAdmin && id !in db.feeds
    ensures r.status == Forbidden <==>
              ParseRole(user.role) != SuperAdmin || (id in db.feeds && DeleteBlocked(db, user.id, id))
    ensures DeleteFeed(id) in r.queries <==>
              ParseRole(user.role) == SuperAdmin && id in db.feeds && !DeleteBlocked(db, user.id, id)
    ensures r.status == Ok <==> DeleteFeed(id) in r.queries && !fails
    ensures DeleteFeed(id) in r.queries && fails ==> r.status == InternalError
    // the statements run in a fixed order and the only write is the final DELETE
    ensures |r.queries| > 0 ==> r.queries[0] == SelectFeed(id)
    ensures |r.queries| > 1 ==> r.queries[1] == SelectAdmins
    ensures forall i :: 0 <= i < |r.queries| && r.queries[i].IsWrite() ==>
              i == |r.queries| - 1 && r.queries[i] == DeleteFeed(id)
  {
    if !SuperAdminOnly(user.role) then Denied
    else if id !in db.feeds then Reply(NotFound, [SelectFeed(id)])
    else
      var scan := Scan(AdminIds(db.users), user.id, id, db.grants);
      ScanDecidesBlocked(db, user.id, id);
      var lookups := [SelectFeed(id), SelectAdmins] + scan.probes;
      assert forall i :: 0 <= i < |lookups| ==> !lookups[i].IsWrite();
      if scan.blocked then Reply(Forbidden, lookups)
      else
        assert DeleteFeed(id) !in lookups;
        Reply(if fails then InternalError else Ok, lookups + [DeleteFeed(id)])
  }

  /** The feed table after a reply: a successful reply's DELETE statements remove their rows. */
  function ApplyDeletes(feeds: map<Id, Feed>, r: Reply): (after: map<Id, Feed>)
    ensures after.Keys <= feeds.Keys
    ensures forall k :: k in after ==> after[k] == feeds[k]
    ensures r.status != Ok ==> after == feeds
    ensures r.status == Ok ==> forall k :: k in feeds ==> (k in after <==> DeleteFeed(k) !in r.queries)
  {
    if r.status != Ok then feeds
    else map k | k in feeds && DeleteFeed(k) !in r.queries :: feeds[k]
  }

  // ----- properties of the delete resolver -----

  /** The role is checked before the store: a non-Super-Admin gets 403 whatever the tables hold, even for a missing feed. */
  lemma DeleteChecksRoleFirst(user: Claims, id: Id, db1: Store, db2: Store, fails1: bool, fails2: bool)
    requires ParseRole(user.role) != SuperAdmin
    ensures Delete(user, id, db1, fails1) == Delete(user, id, db2, fails2)
    ensures Delete(user, id, db1, fails1).status.Code() == 403
  {
  }

  /**
    A missing feed is 404 after the one lookup: neither the admin list nor any
    grant is consulted, so changing them changes nothing.
   */
  lemma MissingFeedIsNotFound(user: Claims, id: Id, db: Store, users: seq<User>, grants: set<Grant>, fails: bool)
    requires ParseRole(user.role) == SuperAdmin && id !in db.feeds
    ensures Delete(user, id, db, fails) == Reply(NotFound, [SelectFeed(id)])
    ensures Delete(user, id, db.(users := users, grants := grants), fails) == Delete(user, id, db, fails)
  {
  }

  /**
    Two scans over the same admins agree when, for every admin other than the
    requester, the two grant sets agree on that admin's delete grant.
   */
  lemma {:induction false} ScanDependsOnlyOnAdminGrants(admins: seq<Id>, requester: Id, feedId: Id, g1: set<Grant>, g2: set<Grant>)
    requires forall a :: a in admins && a != requester ==> (Grant(feedId, a, 1) in g1 <==> Grant(feedId, a, 1) in g2)
    ensures Scan(admins, requester, feedId, g1) == Scan(admins, requester, feedId, g2)
    decreases |admins|
  {
    if |admins| > 0 {
      assert forall a :: a in admins[1..] ==> a in admins;
      ScanDependsOnlyOnAdminGrants(admins[1..], requester, feedId, g1, g2);
    }
  }

  /**
    A grant can never block a delete when it has `can_delete` other than 1, is
    on another feed, is held by the requester, or is held by a user without
    the 'Admin' role (another Super Admin, say).
   */
  predicate Inert(g: Grant, requester: Id, feedId: Id, users: seq<User>) {
    g.canDelete != 1 || g.feedId != feedId || g.userId == requester
    || forall u :: u in users && u.id == g.userId ==> u.role != AdminName
  }

  /** Adding inert grants leaves the whole reply unchanged: same status, same statements. */
  lemma InertGrantsNeverBlock(user: Claims, id: Id, db: Store, extra: set<Grant>, fails: bool)
    requires forall g :: g in extra ==> Inert(g, user.id, id, db.users)
    ensures Delete(user, id, db.(grants := db.grants + extra), fails) == Delete(user, id, db, fails)
  {
    var db2 := db.(grants := db.grants + extra);
    var ids := AdminIds(db.users);
    forall a | a in ids && a != user.id
      ensures Grant(id, a, 1) !in extra
    {
      var u :| u in db.users && u.role == AdminName && u.id == a;
      assert !Inert(Grant(id, a, 1), user.id, id, db.users);
    }
    ScanDependsOnlyOnAdminGrants(ids, user.id, id, db.grants, db2.grants);
  }

  /** The requester's own delete grant never blocks the requester. */
  lemma OwnGrantNeverBlocks(user: Claims, id: Id, db: Store, fails: bool)
    ensures Delete(user, id, db.(grants := db.grants + {Grant(id, user.id, 1)}), fails) == Delete(user, id, db, fails)
  {
    InertGrantsNeverBlock(user, id, db, {Grant(id, user.id, 1)}, fails);
  }

  /**
    Monotonicity: more admin rows or more grants can only turn an allowed
    delete into a refused one, never the reverse.
   */
  lemma BlockingIsMonotone(user: Claims, id: Id, db: Store, more: Store, fails: bool)
    requires more.feeds == db.feeds
    requires forall u :: u in db.users ==> u in more.users
    requires db.grants <= more.grants
    ensures Delete(user, id, db, fails).status == Forbidden ==> Delete(user, id, more, fails).status == Forbidden
  {
  }

  /** The decision does not depend on the order in which the user table enumerates its rows. */
  lemma DecisionIgnoresUserOrder(user: Claims, id: Id, db: Store, users: seq<User>, fails: bool)
    requires forall u :: u in users <==> u in db.users
    ensures Delete(user, id, db.(users := users), fails).status == Delete(user, id, db, fails).status
  {
  }

  /** Only a successful reply removes the feed, and then exactly that feed: every earlier return leaves the table as it was. */
  lemma DeleteEffect(user: Claims, id: Id, db: Store, fails: bool)
    ensures var r := Delete(user, id, db, fails);
            ApplyDeletes(db.feeds, r) == if r.status == Ok then db.feeds - {id} else db.feeds
  {
  }

  /**
    Feed 7 exists and admin 2 holds a delete grant on it: a Super Admin with id
    1 is refused. With the grant removed, the same request succeeds and the
    feed is gone.
   */
  lemma GrantScenario()
    ensures var sa := Claims("1", "ayush", SuperAdminName, "ayush@gmail.com", "ayush@123");
            var feeds := map["7" := Feed("7", "t", "c")];
            var users := [User("1", "ayush", "ayush@gmail.com", SuperAdminName), User("2", "a", "a@x", AdminName)];
            var blocked := Store(feeds, users, {Grant("7", "2", 1)});
            var cleared := Store(feeds, users, {});
            && Delete(sa, "7", blocked, false).status.Code() == 403
            && Delete(sa, "7", cleared, false).status.Code() == 200
            && ApplyDeletes(feeds, Delete(sa, "7", cleared, false)) == map[]
  {
  }
}
