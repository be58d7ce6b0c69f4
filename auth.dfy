/** Resolving the caller of a request from the `x-user-id` header, as the
    handlers of server/controllers/donation.controller.js and the dashboard
    controllers do before running any operation. */
module Auth {
  import opened Common
  import opened Schemas

  /** The `x-user-id` header as it arrives. */
  datatype UserIdHeader =
    | Absent
    | Empty
    | Malformed(raw: string)   // not an ObjectId: `User.findById` throws a cast error
    | UserId(id: Id)

  /** Where the lookup leaves the request. */
  datatype Caller =
    | Unauthenticated          // `!userId`: answered 401
    | LookupThrew              // the thrown cast error is caught: answered 500
    | UnknownUser              // no such user: answered 404
    | Known(user: User)

  const UserNotFoundMessage := "User not found."

  function Resolve(header: UserIdHeader, users: map<Id, User>): (c: Caller)
    ensures c == Unauthenticated <==> header.Absent? || header.Empty?
    ensures c == LookupThrew <==> header.Malformed?
    ensures c == UnknownUser <==> header.UserId? && header.id !in users
    ensures c.Known? <==> header.UserId? && header.id in users
    ensures c.Known? ==> c.user == users[header.id]
  {
    match header
    case Absent => Unauthenticated
    case Empty => Unauthenticated
    case Malformed(_) => LookupThrew
    case UserId(id) => if id in users then Known(users[id]) else UnknownUser
  }

  /** The answer given before any operation runs, when the caller cannot be resolved. */
  function EarlyResponse<T>(c: Caller, missingMessage: string, catchMessage: string): (r: Response<T>)
    requires !c.Known?
    ensures c == Unauthenticated ==> r == Refuse(401, missingMessage)
    ensures c == LookupThrew ==> r == Refuse(500, catchMessage)
    ensures c == UnknownUser ==> r == Refuse(404, UserNotFoundMessage)
  {
    match c
    case Unauthenticated => Refuse(401, missingMessage)
    case LookupThrew => Refuse(500, catchMessage)
    case UnknownUser => Refuse(404, UserNotFoundMessage)
  }

  /** `result.message || fallback`. */
  function MessageOr(message: string, fallback: string): (r: string)
    ensures r != [] || fallback == []
    ensures message != [] ==> r == message
    ensures message == [] ==> r == fallback
  {
    if message != [] then message else fallback
  }
}
