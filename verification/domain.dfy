/**
  Shared vocabulary of the authorization layer: the claims a verified token
  carries, the rows of the three tables the decision engine reads (Feed, User,
  Feed_Permissions), the statements a route handler may issue against the
  store, and the HTTP reply a handler produces.
 */
module Domain {

  datatype Option<+T> = None | Some(value: T)

  /** Feed and user ids. Token ids and table ids are modelled as one type with equality. */
  type Id = string

  /** The decoded token payload attached to the request as `req.user`. */
  datatype Claims = Claims(id: Id, name: string, role: string, email: string, password: string)

  /** The statuses the routes answer with. */
  datatype Status = Ok | BadRequest | Unauthorized | Forbidden | NotFound | InternalError
  {
    function Code(): (c: nat)
      ensures 200 <= c < 600
      ensures c == 200 <==> this == Ok
    {
      match this
      case Ok => 200
      case BadRequest => 400
      case Unauthorized => 401
      case Forbidden => 403
      case NotFound => 404
      case InternalError => 500
    }
  }

  /** Rows of the store. `canDelete` is the integer column the grant query compares with 1. */
  datatype Feed = Feed(id: Id, title: string, content: string)
  datatype User = User(id: Id, name: string, email: string, role: string)
  datatype Grant = Grant(feedId: Id, userId: Id, canDelete: int)

  /** The in-memory stand-in for the MySQL tables. `users` is in table order. */
  datatype Store = Store(feeds: map<Id, Feed>, users: seq<User>, grants: set<Grant>)

  /** The statements a handler issues, in the order it issues them. */
  datatype Query =
    | InsertFeed(title: string, content: string)
    | SelectFeeds
    | SelectFeed(feedId: Id)
    | UpdateFeed(feedId: Id, title: string, content: string)
    | DeleteFeed(feedId: Id)
    | SelectAdmins
    | SelectGrant(feedId: Id, userId: Id)
    | InsertUser(name: string, email: string, password: string)
    | SelectUsers
    | SelectUser(userId: Id)
    | UpdateUser(userId: Id, name: string, email: string)
    | DeleteUser(userId: Id)
  {
    /** Statements that change the store. */
    predicate IsWrite() {
      InsertFeed? || UpdateFeed? || DeleteFeed? || InsertUser? || UpdateUser? || DeleteUser?
    }
  }

  /** What a handler does to one request: the status it answers with and the statements it issued. */
  datatype Reply = Reply(status: Status, queries: seq<Query>)

  /** A request turned away before any statement is issued. */
  const Denied := Reply(Forbidden, [])

  /**
    JavaScript truthiness of a header or body string, as `if (!x)` tests it:
    absent and empty are falsy.
   */
  predicate Truthy(s: Option<string>) {
    s.Some? && s.value != ""
  }

  /**
    The common tail of every handler that passed its gate: issue one statement;
    the callback answers `onError` when the store reports an error, else 200
    with the rows.
   */
  function Execute(q: Query, fails: bool, onError: Status): (r: Reply)
    requires onError != Ok
    ensures r.queries == [q]
    ensures r.status == Ok <==> !fails
    ensures fails ==> r.status == onError
  {
    Reply(if fails then onError else Ok, [q])
  }
}
