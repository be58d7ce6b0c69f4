/** The need controller (server/src/controllers/need.controller.js). */
module NeedApi {
  import opened Common
  import opened Schemas
  import opened Needs
  import opened Http

  const BodyRequiredMessage := "Need data is required"
  /** The success message of `createNeed`, word for word as the controller sends it. */
  const CreatedMessage := "Student created successfully"
  const FetchedMessage := "Needs fetched successfully"

  function CreateAnswer(r: ServiceResult<Need>): (resp: Response<Need>)
    ensures resp.success <==> r.status == Success
    ensures resp.success ==> resp == Response(201, true, r.data, CreatedMessage)
    ensures !resp.success ==> resp.code == 500
    ensures r.status == ServerError ==> resp.message == r.message
  {
    Switch(r, Response(201, true, r.data, CreatedMessage), {ServerError})
  }

  function GetAllAnswer(r: ServiceResult<seq<Need>>): (resp: Response<seq<Need>>)
    ensures resp.success <==> r.status == Success
    ensures resp.success ==> resp == Response(200, true, r.data, FetchedMessage)
    ensures !resp.success ==> resp.code == 500
    ensures r.status == ServerError ==> resp.message == r.message
  {
    Switch(r, Response(200, true, r.data, FetchedMessage), {ServerError})
  }

  /** `createNeed`: a missing body is refused with 400 before the service is asked. */
  function CreateNeed(body: Option<NeedInput>, service: NeedInput -> Outcome<Need>): (r: Reaction<Need>)
    ensures body.None? ==> r == Sent(Refuse(400, BodyRequiredMessage))
    ensures body.Some? ==> r == Settle(Current, service(body.value), CreateAnswer)
  {
    if body.None? then Sent(Refuse(400, BodyRequiredMessage)) else Settle(Current, service(body.value), CreateAnswer)
  }

  /** `getAllNeeds`: 200 with the list on SUCCESS, 500 with the service's message
      otherwise, and 500 for a throw. */
  function GetAllNeeds(o: Outcome<seq<Need>>): (r: Reaction<seq<Need>>)
    ensures r.Sent?
    ensures o.Returned? ==>
      (r.response.code == 200 <==> o.result.status == Success)
      && (o.result.status == Success ==> r.response.success && r.response.data == o.result.data)
      && (o.result.status != Success ==> r.response.code == 500 && !r.response.success)
    ensures o.Threw? ==> r.response == Refuse(500, InternalServerErrorMessage)
  {
    Settle(Current, o, GetAllAnswer)
  }

  /** Against the need service: 201 exactly when the record was saved, otherwise
      500 with the service's fixed message; a response is always sent. */
  lemma CreateAgainstService(id: Id, now: nat, input: NeedInput, saveFails: bool)
    ensures var r := CreateNeed(Some(input), (b: NeedInput) => Returned(CreateResult(id, now, b, saveFails)));
      r.Sent?
      && (r.response.code == 201 <==> !saveFails && NewNeed(id, now, input).Valid?)
      && (r.response.code != 201 ==> r.response == Refuse(500, CreateFailedMessage))
  {
  }

  /** Against the need service: 200 with every stored need, or 500 "Failed to retrieve needs.". */
  lemma GetAllAgainstService(s: seq<Need>, readFails: bool)
    ensures var r := GetAllNeeds(Returned(GetAll(s, readFails)));
      r.Sent?
      && (r.response.code == 200 <==> !readFails)
      && (!readFails ==> r.response.data == Some(s))
      && (readFails ==> r.response == Refuse(500, ReadFailedMessage))
  {
  }
}
