/** What the branch, student and need controllers share: the answer to a
    missing route id, the `switch` from a service status to an HTTP code, and
    what becomes of an exception thrown while a request is handled. */
module Http {
  import opened Common

  const IdRequiredMessage := "id is required"
  const UnexpectedMessage := "Unexpected error occurred"

  /** The HTTP code a `case` of the controllers' switches gives a failure status. */
  function FailureCode(s: Status): (code: int)
    requires s != Success
    ensures s == NotFound <==> code == 404
    ensures s == BadRequest <==> code == 400
    ensures s == Forbidden <==> code == 403
    ensures s == ServerError <==> code == 500
  {
    match s
    case NotFound => 404
    case BadRequest => 400
    case Forbidden => 403
    case ServerError => 500
  }

  /** A `switch (result.status)` whose SUCCESS case answers `success`, whose
      cases for the statuses in `handled` pass the service message on, and
      whose `default` answers 500 "Unexpected error occurred". */
  function Switch<T>(r: ServiceResult<T>, success: Response<T>, handled: set<Status>): (resp: Response<T>)
    ensures r.status == Success ==> resp == success
    ensures r.status != Success && r.status in handled ==>
      !resp.success && resp.message == r.message && resp.code == FailureCode(r.status)
    ensures r.status != Success && r.status !in handled ==> resp == Refuse(500, UnexpectedMessage)
  {
    if r.status == Success then success
    else if r.status in handled then Refuse(FailureCode(r.status), r.message)
    else Refuse(500, UnexpectedMessage)
  }

  /** How a request ends: a response is sent, or an exception escapes an
      `async` handler that has no `try`/`catch`, and nothing is sent. */
  datatype Reaction<+T> = Sent(response: Response<T>) | Unhandled(error: string)

  /** The controllers under server/src/controllers wrap their bodies in
      `try`/`catch`; the older ones under server/controllers do not. */
  datatype Version = Current | Legacy

  const InternalServerErrorMessage := "Internal Server Error"

  /** The end of a request whose service call either returned (and was answered
      by `answer`) or threw. */
  function Settle<T>(v: Version, o: Outcome<T>, answer: ServiceResult<T> -> Response<T>)
    : (r: Reaction<T>)
    ensures o.Returned? ==> r == Sent(answer(o.result))
    ensures o.Threw? && v == Current ==> r == Sent(Refuse(500, InternalServerErrorMessage))
    ensures o.Threw? && v == Legacy ==> r == Unhandled(o.error)
  {
    match o
    case Returned(result) => Sent(answer(result))
    case Threw(e) => if v == Current then Sent(Refuse(500, InternalServerErrorMessage)) else Unhandled(e)
  }

  /** The two versions of a controller differ only when the service throws. */
  lemma VersionsAgreeUnlessThrown<T>(o: Outcome<T>, answer: ServiceResult<T> -> Response<T>)
    ensures o.Returned? <==> Settle(Current, o, answer) == Settle(Legacy, o, answer)
  {
  }
}
