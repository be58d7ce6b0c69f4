/** The donation controller with caller checks (server/controllers/donation.controller.js):
    `handleDonationRequest` resolves the caller, runs the operation's role guard,
    calls the service and maps its status to an HTTP code. The service is a
    parameter: the handler's behaviour does not depend on how it is implemented. */
module DonationGate {
  import opened Common
  import opened Schemas
  import opened Donations
  import opened Auth

  const MissingUserMessage := "Authentication required. User ID missing."
  const InternalErrorMessage := "Internal server error."
  const ServerErrorFallback := "Server error."

  /** The endpoint a request addresses, with its route parameters. */
  datatype DonationOp =
    | CreateOp
    | UpdateOp(id: Id)
    | DeleteOp(id: Id)
    | GetAllOp
    | GetByIdOp(id: Id)
    | ByDonorOp
    | ByBranchOp(branchId: Id)

  datatype DonationRequest = DonationRequest(op: DonationOp, body: DonationBody, file: Option<string>)

  /** The service call an operation makes. */
  datatype DonationCall =
    | CreateCall(input: DonationInput)
    | UpdateCall(id: Id, patch: DonationPatch)
    | DeleteCall(id: Id)
    | GetAllCall
    | GetByIdCall(id: Id)
    | ByDonorCall(donor: Id)
    | ByBranchCall(branch: Id)

  /** What the role guard decides: refuse with FORBIDDEN, or make a service call. */
  datatype Decision = Deny(message: string) | Call(call: DonationCall)

  /** The data `createDonation` builds: the donor is always the caller. */
  function CreateInput(user: User, body: DonationBody, file: Option<string>): (input: DonationInput)
    ensures input.donor == Some(user.id) && input.status.None?
    ensures input.receiptImage == ReceiptImage(file, body) && input.notes == NotesOrEmpty(body)
    ensures input.branch == body.branch && input.amount == body.amount
  {
    DonationInput(Some(user.id), body.branch, body.amount, ReceiptImage(file, body),
                  None, NotesOrEmpty(body), body.transactionId)
  }

  /** The role guard of each operation. */
  function Authorize(user: User, req: DonationRequest): (d: Decision)
    ensures req.op.CreateOp? ==>
      (d.Call? <==> user.role == Donor)
      && (d.Call? ==> d.call == CreateCall(CreateInput(user, req.body, req.file)))
    ensures req.op.UpdateOp? ==>
      (d.Call? <==> user.role in {HeadOfficeAdmin, BranchAdmin})
      && (d.Call? ==> d.call == UpdateCall(req.op.id, UpdatePatch(req.body, req.file)))
    ensures req.op.DeleteOp? ==>
      (d.Call? <==> user.role == HeadOfficeAdmin) && (d.Call? ==> d.call == DeleteCall(req.op.id))
    ensures req.op.GetAllOp? ==> d == Call(GetAllCall)
    ensures req.op.GetByIdOp? ==> d == Call(GetByIdCall(req.op.id))
    ensures req.op.ByDonorOp? ==>
      (d.Call? <==> user.role == Donor) && (d.Call? ==> d.call == ByDonorCall(user.id))
    ensures req.op.ByBranchOp? ==>
      (d.Call? <==> user.role in {BranchAdmin, HeadOfficeAdmin})
      && (d.Call? ==> d.call == ByBranchCall(req.op.branchId))
  {
    match req.op
    case CreateOp =>
      if user.role != Donor then Deny("Only donors can create donations.")
      else Call(CreateCall(CreateInput(user, req.body, req.file)))
    case UpdateOp(id) =>
      if user.role != HeadOfficeAdmin && user.role != BranchAdmin then Deny("Access denied.")
      else Call(UpdateCall(id, UpdatePatch(req.body, req.file)))
    case DeleteOp(id) =>
      if user.role != HeadOfficeAdmin then Deny("Only head office admins can delete.")
      else Call(DeleteCall(id))
    case GetAllOp => Call(GetAllCall)
    case GetByIdOp(id) => Call(GetByIdCall(id))
    case ByDonorOp =>
      if user.role != Donor then Deny("Donor access only.") else Call(ByDonorCall(user.id))
    case ByBranchOp(branchId) =>
      if user.role != BranchAdmin && user.role != HeadOfficeAdmin then Deny("Access denied.")
      else Call(ByBranchCall(branchId))
  }

  /** The `switch (result.status)` of the handler. */
  function StatusResponse<T>(result: ServiceResult<T>): (r: Response<T>)
    ensures r.success <==> result.status == Success
    ensures result.status == Success ==> r == Reply(200, result.data)
    ensures result.status == NotFound ==> r == Refuse(404, result.message)
    ensures result.status == Forbidden ==> r == Refuse(403, result.message)
    ensures result.status in {BadRequest, ServerError} ==>
      r == Refuse(500, MessageOr(result.message, ServerErrorFallback))
  {
    match result.status
    case Success => Reply(200, result.data)
    case NotFound => Refuse(404, result.message)
    case Forbidden => Refuse(403, result.message)
    case _ => Refuse(500, MessageOr(result.message, ServerErrorFallback))
  }

  /** An awaited operation: a throw is caught and answered 500. */
  function OutcomeResponse<T>(o: Outcome<T>): (r: Response<T>)
    ensures o.Threw? ==> r == Refuse(500, InternalErrorMessage)
    ensures o.Returned? ==> r == StatusResponse(o.result)
  {
    match o
    case Threw(_) => Refuse(500, InternalErrorMessage)
    case Returned(result) => StatusResponse(result)
  }

  /** `handleDonationRequest(req, res, operation)` for one of the exported controllers. */
  function HandleDonationRequest<T>(
    header: UserIdHeader, users: map<Id, User>, req: DonationRequest,
    service: DonationCall -> Outcome<T>): (r: Response<T>)
    ensures header.Absent? || header.Empty? ==> r == Refuse(401, MissingUserMessage)
    ensures header.Malformed? ==> r == Refuse(500, InternalErrorMessage)
    ensures header.UserId? && header.id !in users ==> r == Refuse(404, UserNotFoundMessage)
    ensures header.UserId? && header.id in users ==>
      match Authorize(users[header.id], req)
      case Deny(message) => r == Refuse(403, message)
      case Call(call) => r == OutcomeResponse(service(call))
  {
    var caller := Resolve(header, users);
    if !caller.Known? then EarlyResponse(caller, MissingUserMessage, InternalErrorMessage)
    else match Authorize(caller.user, req)
      case Deny(message) => StatusResponse(Fail(Forbidden, message))
      case Call(call) => OutcomeResponse(service(call))
  }

  /** A request whose caller cannot be resolved is answered without the service:
      any two services give the same answer. */
  lemma UnresolvedCallerSkipsService<T>(
    header: UserIdHeader, users: map<Id, User>, req: DonationRequest,
    s1: DonationCall -> Outcome<T>, s2: DonationCall -> Outcome<T>)
    requires !(header.UserId? && header.id in users)
    ensures HandleDonationRequest(header, users, req, s1) == HandleDonationRequest(header, users, req, s2)
  {
  }

  /** A refused role never reaches the service either: in particular no role but
      HEAD_OFFICE_ADMIN can make a delete call. */
  lemma OnlyHeadOfficeDeletes(user: User, req: DonationRequest)
    requires req.op.DeleteOp?
    ensures (exists id :: Authorize(user, req) == Call(DeleteCall(id))) <==> user.role == HeadOfficeAdmin
  {
    if user.role == HeadOfficeAdmin {
      assert Authorize(user, req) == Call(DeleteCall(req.op.id));
    }
  }

  /** Whatever a body says about the donor, a created donation belongs to the caller. */
  lemma CreatedByCaller(user: User, req: DonationRequest, id: Id, now: nat)
    requires req.op.CreateOp? && Authorize(user, req).Call?
    ensures var input := Authorize(user, req).call.input;
      NewDonation(id, now, input).Valid? ==>
        NewDonation(id, now, input).doc.donor == user.id && NewDonation(id, now, input).doc.status == "PENDING"
  {
  }
}
