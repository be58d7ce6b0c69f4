/** The student controllers: server/src/controllers/student.controller.js and
    its older twin server/controllers/student.controller.js. Both check the
    route id or the body, call the student service and `switch` on its status;
    only the newer one catches what is thrown. */
module StudentApi {
  import opened Common
  import opened Schemas
  import opened Students
  import opened Http

  const BodyRequiredMessage := "student data is required"
  const CreatedMessage := "Student created successfully"
  const UpdatedMessage := "Student updated successfully"
  const DeletedMessage := "Student deleted successfully"

  /** The `switch` of `getAllStudents`. */
  function GetAllAnswer(r: ServiceResult<seq<Student>>): (resp: Response<seq<Student>>)
    ensures resp.success <==> r.status == Success
    ensures resp.success ==> resp.code == 200 && resp.data == r.data
    ensures !resp.success ==> resp.code == 500
  {
    Switch(r, Reply(200, r.data), {ServerError})
  }

  /** The `switch` of `getStudentById`. */
  function GetByIdAnswer(r: ServiceResult<Student>): (resp: Response<Student>)
    ensures resp.success <==> r.status == Success
    ensures resp.success ==> resp.code == 200 && resp.data == r.data
    ensures r.status == NotFound <==> resp.code == 404
    ensures r.status != Success && r.status != NotFound ==> resp.code == 500
  {
    Switch(r, Reply(200, r.data), {NotFound, ServerError})
  }

  /** The `switch` of `createStudent`. */
  function CreateAnswer(r: ServiceResult<Student>): (resp: Response<Student>)
    ensures resp.success <==> r.status == Success
    ensures resp.success ==> resp == Response(201, true, r.data, CreatedMessage)
    ensures !resp.success ==> resp.code == 500
  {
    Switch(r, Response(201, true, r.data, CreatedMessage), {ServerError})
  }

  /** The `switch` of `updateStudentById`. */
  function UpdateAnswer(r: ServiceResult<Student>): (resp: Response<Student>)
    ensures resp.success <==> r.status == Success
    ensures resp.success ==> resp == Response(200, true, r.data, UpdatedMessage)
    ensures r.status == NotFound <==> resp.code == 404
    ensures r.status != Success && r.status != NotFound ==> resp.code == 500
  {
    Switch(r, Response(200, true, r.data, UpdatedMessage), {NotFound, ServerError})
  }

  /** The `switch` of `deleteStudentById`: SUCCESS sends a message and no data. */
  function DeleteAnswer(r: ServiceResult<Student>): (resp: Response<Student>)
    ensures resp.success <==> r.status == Success
    ensures resp.success ==> resp == Response(200, true, None, DeletedMessage)
    ensures r.status == NotFound <==> resp.code == 404
    ensures r.status != Success && r.status != NotFound ==> resp.code == 500
    ensures resp.data == None
  {
    Switch(r, Response(200, true, None, DeletedMessage), {NotFound, ServerError})
  }

  /** `getAllStudents`: 200 with the list on SUCCESS, 500 otherwise; a throw is
      caught only by the current controller. */
  function GetAllStudents(v: Version, o: Outcome<seq<Student>>): (r: Reaction<seq<Student>>)
    ensures o.Returned? ==>
      r.Sent? && (r.response.code == 200 <==> o.result.status == Success)
      && (o.result.status == Success ==> r.response.success && r.response.data == o.result.data)
      && (o.result.status != Success ==> r.response.code == 500 && !r.response.success)
    ensures o.Threw? && v == Current ==> r == Sent(Refuse(500, InternalServerErrorMessage))
    ensures o.Threw? && v == Legacy ==> r == Unhandled(o.error)
  {
    Settle(v, o, GetAllAnswer)
  }

  /** A missing route id is refused with 400 before the service is asked. */
  function GetStudentById(v: Version, id: Option<Id>, service: Id -> Outcome<Student>): (r: Reaction<Student>)
    ensures id.None? ==> r == Sent(Refuse(400, IdRequiredMessage))
    ensures id.Some? ==> r == Settle(v, service(id.value), GetByIdAnswer)
  {
    if id.None? then Sent(Refuse(400, IdRequiredMessage)) else Settle(v, service(id.value), GetByIdAnswer)
  }

  /** A missing body is refused with 400 before the service is asked. */
  function CreateStudent(v: Version, body: Option<StudentInput>, service: StudentInput -> Outcome<Student>)
    : (r: Reaction<Student>)
    ensures body.None? ==> r == Sent(Refuse(400, BodyRequiredMessage))
    ensures body.Some? ==> r == Settle(v, service(body.value), CreateAnswer)
  {
    if body.None? then Sent(Refuse(400, BodyRequiredMessage)) else Settle(v, service(body.value), CreateAnswer)
  }

  /** Only the id is checked; the update body goes to the service as it came. */
  function UpdateStudentById(v: Version, id: Option<Id>, patch: StudentPatch,
                             service: (Id, StudentPatch) -> Outcome<Student>): (r: Reaction<Student>)
    ensures id.None? ==> r == Sent(Refuse(400, IdRequiredMessage))
    ensures id.Some? ==> r == Settle(v, service(id.value, patch), UpdateAnswer)
  {
    if id.None? then Sent(Refuse(400, IdRequiredMessage)) else Settle(v, service(id.value, patch), UpdateAnswer)
  }

  function DeleteStudentById(v: Version, id: Option<Id>, service: Id -> Outcome<Student>): (r: Reaction<Student>)
    ensures id.None? ==> r == Sent(Refuse(400, IdRequiredMessage))
    ensures id.Some? ==> r == Settle(v, service(id.value), DeleteAnswer)
  {
    if id.None? then Sent(Refuse(400, IdRequiredMessage)) else Settle(v, service(id.value), DeleteAnswer)
  }

  /** Against the student service: a lookup answers 200 with the record stored
      under the id, or 404 when there is none; both controller versions agree. */
  lemma GetByIdAgainstService(v: Version, s: seq<Student>, id: Id)
    requires Ordered(s)
    ensures var r := GetStudentById(v, Some(id), (k: Id) => Returned(GetById(s, k)));
      r.Sent?
      && (r.response.code == 404 <==> forall k :: 0 <= k < |s| ==> s[k].id != id)
      && (r.response.code == 200 <==> exists k :: 0 <= k < |s| && s[k].id == id)
      && (forall k :: 0 <= k < |s| && s[k].id == id ==> r.response.data == Some(s[k]))
  {
    forall k | 0 <= k < |s| && s[k].id == id {
      GetFindsStored(s, k);
    }
  }

  /** Against the student service: a create answers 201 exactly when the body
      passes the schema, and then carries the stored record. */
  lemma CreateAgainstService(v: Version, id: Id, now: nat, input: StudentInput)
    ensures var r := CreateStudent(v, Some(input), (b: StudentInput) => Returned(CreateResult(id, now, b)));
      r.Sent?
      && (r.response.code == 201 <==> NewStudent(id, now, input).Valid?)
      && (r.response.code == 201 ==> r.response.data == Some(NewStudent(id, now, input).doc))
      && (r.response.code != 201 ==> r.response == Refuse(500, InvalidMessage))
  {
  }

  /** Against the student service: every stored student, in collection order,
      with 200 in both controller versions. */
  lemma GetAllAgainstService(v: Version, s: seq<Student>)
    ensures var r := GetAllStudents(v, Returned(Students.GetAll(s)));
      r.Sent? && r.response.code == 200 && r.response.success && r.response.data == Some(s)
  {
    var res := Students.GetAll(s);
    assert res.data.value == s;
  }
}
