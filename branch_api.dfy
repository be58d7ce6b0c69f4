/** The branch controller (server/src/controllers/branch.controller.js): each
    endpoint checks its input, calls the branch service once and turns the
    service's status into an HTTP code with a `switch`. */
module BranchApi {
  import opened Common
  import opened Schemas
  import opened Branches
  import opened Http

  const BranchRequiredMessage := "branch data is required"
  const UpdateDataRequiredMessage := "branch or admin data is required for update"
  const CreatedMessage := "Branch created successfully"
  const UpdatedMessage := "Branch updated successfully"
  const DeletedMessage := "Branch deleted successfully"

  /** `getAllBranches`. */
  function GetAllBranchesResponse(r: ServiceResult<map<Id, BranchView>>): (resp: Response<map<Id, BranchView>>)
    ensures resp.success <==> r.status == Success
    ensures resp.success ==> resp.code == 200 && resp.data == r.data
    ensures !resp.success ==> resp.code == 500
  {
    Switch(r, Reply(200, r.data), {ServerError})
  }

  /** `getBranchById`: a missing id is refused before the service is asked. */
  function GetBranchByIdResponse(id: Option<Id>, service: Id -> ServiceResult<BranchView>): (resp: Response<BranchView>)
    ensures id.None? ==> resp == Refuse(400, IdRequiredMessage)
    ensures id.Some? ==> resp == Switch(service(id.value), Reply(200, service(id.value).data), {NotFound, ServerError})
  {
    if id.None? then Refuse(400, IdRequiredMessage)
    else
      var r := service(id.value);
      Switch(r, Reply(200, r.data), {NotFound, ServerError})
  }

  /** `createBranch`: without `branch` in the body the service is not called. */
  function CreateBranchResponse(branch: Option<BranchInput>, admin: Option<UserInput>,
                                service: (BranchInput, Option<UserInput>) -> ServiceResult<CreatedBranch>)
    : (resp: Response<CreatedBranch>)
    ensures branch.None? ==> resp == Refuse(400, BranchRequiredMessage)
    ensures branch.Some? ==>
      var r := service(branch.value, admin);
      resp == Switch(r, Response(201, true, r.data, CreatedMessage), {ServerError})
  {
    if branch.None? then Refuse(400, BranchRequiredMessage)
    else
      var r := service(branch.value, admin);
      Switch(r, Response(201, true, r.data, CreatedMessage), {ServerError})
  }

  /** `updateBranchById`: the id is checked first, then that at least one of
      `branch` and `admin` was sent. */
  function UpdateBranchResponse(id: Option<Id>, req: UpdateRequest,
                                service: (Id, UpdateRequest) -> ServiceResult<BranchView>)
    : (resp: Response<BranchView>)
    ensures id.None? ==> resp == Refuse(400, IdRequiredMessage)
    ensures id.Some? && req.branch.None? && req.admin.None? ==> resp == Refuse(400, UpdateDataRequiredMessage)
    ensures id.Some? && (req.branch.Some? || req.admin.Some?) ==>
      var r := service(id.value, req);
      resp == Switch(r, Response(200, true, r.data, UpdatedMessage), {NotFound, BadRequest, ServerError})
  {
    if id.None? then Refuse(400, IdRequiredMessage)
    else if req.branch.None? && req.admin.None? then Refuse(400, UpdateDataRequiredMessage)
    else
      var r := service(id.value, req);
      Switch(r, Response(200, true, r.data, UpdatedMessage), {NotFound, BadRequest, ServerError})
  }

  /** `deleteBranchById`: SUCCESS answers 200 with a message and no data. */
  function DeleteBranchResponse(id: Option<Id>, service: Id -> ServiceResult<Branch>): (resp: Response<Branch>)
    ensures id.None? ==> resp == Refuse(400, IdRequiredMessage)
    ensures id.Some? ==> resp == Switch(service(id.value), Response(200, true, None, DeletedMessage), {NotFound, ServerError})
    ensures resp.data == None
  {
    if id.None? then Refuse(400, IdRequiredMessage)
    else Switch(service(id.value), Response(200, true, None, DeletedMessage), {NotFound, ServerError})
  }

  /** Every response the controller gives in front of the branch service: no
      request ever reaches the `default` case, and the code tells the outcome. */
  lemma GetByIdAgainstService(branches: map<Id, Branch>, users: map<Id, User>, id: Id)
    ensures var resp := GetBranchByIdResponse(Some(id), (k: Id) => GetBranchById(branches, users, k));
      (resp.code == 200 <==> id in branches)
      && (resp.code == 404 <==> id !in branches)
      && (resp.code == 200 ==> resp.data == Some(View(branches, users, id)))
  {
  }

  /** Updating through the controller: each outcome of the service's plan gets its
      own code, and the message of the `default` case is never produced. */
  lemma UpdateAgainstPlan(branches: map<Id, Branch>, users: map<Id, User>, next: nat, id: Id, req: UpdateRequest)
    requires Consistent(branches, users, next)
    requires req.branch.Some? || req.admin.Some?
    ensures var p := PlanUpdate(branches, users, id, req);
      var r := match p
        case UpdateFails(status, message) => Fail(status, message)
        case UpdateCommits(_, _) => Ok(BranchView(p.branch, p.admin));
      var resp := UpdateBranchResponse(Some(id), req, (_, _) => r);
      resp.message != UnexpectedMessage
      && (resp.code == 200 <==> p.UpdateCommits?)
      && (resp.code == 400 <==> p == UpdateFails(BadRequest, NoAdminMessage))
      && (resp.code == 404 <==> p.UpdateFails? && p.status == NotFound)
  {
  }
}
