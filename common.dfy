/** Types shared by every part of the model: identifiers, the optional value,
    the three user roles and the status words every service returns. */
module Common {

  /** A document identifier (a Mongo ObjectId in the system). */
  type Id = nat

  datatype Option<+T> = None | Some(value: T)

  /** The `role` enum of the User schema. */
  datatype Role = HeadOfficeAdmin | BranchAdmin | Donor

  /** The `status` word of a service result. */
  datatype Status = Success | NotFound | BadRequest | Forbidden | ServerError

  /** What a service hands back to its controller: a status, and the data on SUCCESS. */
  datatype ServiceResult<+T> = ServiceResult(status: Status, data: Option<T>, message: string)

  function Ok<T>(data: T): (r: ServiceResult<T>)
    ensures r.status == Success && r.data == Some(data)
  {
    ServiceResult(Success, Some(data), "")
  }

  function Fail<T>(status: Status, message: string): (r: ServiceResult<T>)
    requires status != Success
    ensures r.status == status && r.data == None && r.message == message
  {
    ServiceResult(status, None, message)
  }

  /** An awaited service call either returns a result or throws. */
  datatype Outcome<+T> = Returned(result: ServiceResult<T>) | Threw(error: string)

  /** What `sendResponse` writes: the HTTP status code and the `{ success, data, message }` envelope. */
  datatype Response<+T> = Response(code: int, success: bool, data: Option<T>, message: string)

  /** A successful envelope `{ success: true, data }`. */
  function Reply<T>(code: int, data: Option<T>): (r: Response<T>)
    ensures r.code == code && r.success && r.data == data
  {
    Response(code, true, data, "")
  }

  /** A failed envelope `{ success: false, message }`. */
  function Refuse<T>(code: int, message: string): (r: Response<T>)
    ensures r.code == code && !r.success && r.data == None && r.message == message
  {
    Response(code, false, None, message)
  }
}
