/** The dashboard controllers: `handleDashboardRequest` with its three role-guarded
    endpoints (server/src/controllers/dashboard.controller.js), and `getDashboard`,
    which leaves the role dispatch to the dashboard service (the same function in
    server/src/controllers/dashboard.controller.js and server/controllers/dashboard.controller.js). */
module DashboardGate {
  import opened Common
  import opened Schemas
  import opened Auth
  import opened Dashboard

  const MissingUserMessage := "Authentication required. User ID missing."
  const MissingUserInHeadersMessage := "Authentication required. User ID missing in headers."
  const InternalErrorMessage := "Internal server error."
  const DashboardCrashMessage := "Server error in getDashboard controller."
  const UnexpectedMessage := "An unexpected error occurred"

  datatype DashboardKind = AdminDashboard | BranchAdminDashboard | DonorDashboard

  /** The service calls of the three endpoints (their service functions are not part of this model). */
  datatype DashboardCall = AdminCall | BranchCall(branch: Id) | DonorCall(donor: Id)

  datatype Decision = Deny(message: string) | Call(call: DashboardCall)

  /** The role guard of each endpoint. */
  function AuthorizeDashboard(user: User, kind: DashboardKind): (d: Decision)
    ensures kind == AdminDashboard ==>
      (d.Call? <==> user.role == HeadOfficeAdmin) && (d.Call? ==> d.call == AdminCall)
    ensures kind == BranchAdminDashboard ==>
      (d.Call? <==> user.role == BranchAdmin && user.branch.Some?)
      && (d.Call? ==> d.call == BranchCall(user.branch.value))
    ensures kind == DonorDashboard ==>
      (d.Call? <==> user.role == Donor) && (d.Call? ==> d.call == DonorCall(user.id))
  {
    match kind
    case AdminDashboard =>
      if user.role != HeadOfficeAdmin then Deny("Access denied.") else Call(AdminCall)
    case BranchAdminDashboard =>
      if user.role != BranchAdmin || user.branch.None? then Deny("Access denied or branch not assigned.")
      else Call(BranchCall(user.branch.value))
    case DonorDashboard =>
      if user.role != Donor then Deny("Access denied.") else Call(DonorCall(user.id))
  }

  /** The `switch` of `handleDashboardRequest`: there is no NOT_FOUND case, so it answers 500. */
  function RequestStatusResponse<T>(result: ServiceResult<T>): (r: Response<T>)
    ensures r.success <==> result.status == Success
    ensures result.status == Success ==> r == Reply(200, result.data)
    ensures result.status == Forbidden ==> r == Refuse(403, result.message)
    ensures result.status !in {Success, Forbidden} ==>
      r == Refuse(500, MessageOr(result.message, "Server error."))
  {
    match result.status
    case Success => Reply(200, result.data)
    case Forbidden => Refuse(403, result.message)
    case _ => Refuse(500, MessageOr(result.message, "Server error."))
  }

  /** `handleDashboardRequest(req, res, serviceCall)` for one endpoint. */
  function HandleDashboardRequest<T>(
    header: UserIdHeader, users: map<Id, User>, kind: DashboardKind,
    service: DashboardCall -> Outcome<T>): (r: Response<T>)
    ensures header.Absent? || header.Empty? ==> r == Refuse(401, MissingUserMessage)
    ensures header.Malformed? ==> r == Refuse(500, InternalErrorMessage)
    ensures header.UserId? && header.id !in users ==> r == Refuse(404, UserNotFoundMessage)
    ensures header.UserId? && header.id in users ==>
      match AuthorizeDashboard(users[header.id], kind)
      case Deny(message) => r == Refuse(403, message)
      case Call(call) =>
        (service(call).Threw? ==> r == Refuse(500, InternalErrorMessage))
        && (service(call).Returned? ==> r == RequestStatusResponse(service(call).result))
  {
    var caller := Resolve(header, users);
    if !caller.Known? then EarlyResponse(caller, MissingUserMessage, InternalErrorMessage)
    else match AuthorizeDashboard(caller.user, kind)
      case Deny(message) => RequestStatusResponse(Fail(Forbidden, message))
      case Call(call) =>
        match service(call)
        case Threw(_) => Refuse(500, InternalErrorMessage)
        case Returned(result) => RequestStatusResponse(result)
  }

  /** The `switch` of `getDashboard`. */
  function DashboardStatusResponse<T>(result: ServiceResult<T>): (r: Response<T>)
    ensures r.success <==> result.status == Success
    ensures result.status == Success ==> r == Reply(200, result.data)
    ensures result.status == Forbidden ==> r == Refuse(403, result.message)
    ensures result.status == ServerError ==> r == Refuse(500, result.message)
    ensures result.status in {NotFound, BadRequest} ==> r == Refuse(500, UnexpectedMessage)
  {
    match result.status
    case Success => Reply(200, result.data)
    case Forbidden => Refuse(403, result.message)
    case ServerError => Refuse(500, result.message)
    case _ => Refuse(500, UnexpectedMessage)
  }

  /** `getDashboard`: resolve the caller, then answer with the dashboard service's result. */
  function GetDashboard(header: UserIdHeader, users: map<Id, User>, db: Database, failure: Option<string>)
    : (r: Response<Overview>)
    ensures header.Absent? || header.Empty? ==> r == Refuse(401, MissingUserInHeadersMessage)
    ensures header.Malformed? ==> r == Refuse(500, DashboardCrashMessage)
    ensures header.UserId? && header.id !in users ==> r == Refuse(404, UserNotFoundMessage)
    ensures header.UserId? && header.id in users ==>
      r == DashboardStatusResponse(GetDashboardData(users[header.id], db, failure))
  {
    var caller := Resolve(header, users);
    if !caller.Known? then EarlyResponse(caller, MissingUserInHeadersMessage, DashboardCrashMessage)
    else DashboardStatusResponse(GetDashboardData(caller.user, db, failure))
  }

  /** What each role sees from `getDashboard` when no query fails: the head office
      its overview (200), a branch admin with a branch the branch view (200), and
      everyone else 403. */
  lemma DashboardByRole(user: User, users: map<Id, User>, db: Database)
    requires user.id in users && users[user.id] == user
    ensures var r := GetDashboard(UserId(user.id), users, db, None);
      (r.code == 200 <==> user.role == HeadOfficeAdmin || (user.role == BranchAdmin && user.branch.Some?))
      && (r.code == 403 <==> !(user.role == HeadOfficeAdmin || (user.role == BranchAdmin && user.branch.Some?)))
      && (user.role == HeadOfficeAdmin ==> r.data == Some(AdminDashboardData(db)))
      && (user.role == BranchAdmin && user.branch.Some? ==> r.data == Some(BranchDashboardData(db, user.branch.value)))
  {
  }
}
