/** The head office's need reports (client/src/pages/headAdmin/NeedReportsManagementPage.jsx):
    the status label, the row buttons and the body of a status change. */
module NeedReports {
  import opened Js

  /** The label a status cell shows. */
  datatype Label = Approved | Rejected | Fulfilled | Pending

  /** `getStatusDisplay`: the three settled statuses have their own label; anything else reads Pending. */
  function StatusLabel(status: Json): (l: Label)
    ensures l == Label.Approved <==> status == Str("APPROVED")
    ensures l == Label.Rejected <==> status == Str("REJECTED")
    ensures l == Label.Fulfilled <==> status == Str("FULFILLED")
  {
    if status == Str("APPROVED") then Label.Approved
    else if status == Str("REJECTED") then Label.Rejected
    else if status == Str("FULFILLED") then Label.Fulfilled
    else Label.Pending
  }

  /** What a row button does when clicked. */
  datatype Action =
    | View(row: Json)
    | Delete(row: Json)
    | ChangeStatus(id: Json, status: string, message: string)

  datatype Button = Button(title: string, action: Action)

  predicate IsPending(row: Json)
  {
    Member(row, "status") == Str("PENDING")
  }

  /** `getButtons`: View and Delete always; Approve and Reject are pushed only for a PENDING row. */
  method Buttons(row: Json) returns (buttons: seq<Button>)
    ensures |buttons| == (if IsPending(row) then 4 else 2)
    ensures buttons[0] == Button("View Details", View(row))
    ensures buttons[1] == Button("Delete Report", Delete(row))
    ensures IsPending(row) ==>
      buttons[2] == Button("Approve Need", ChangeStatus(Member(row, "_id"), "APPROVED", "Need approved."))
      && buttons[3] == Button("Reject Need", ChangeStatus(Member(row, "_id"), "REJECTED", "Need rejected."))
    ensures forall k :: 0 <= k < |buttons| && buttons[k].action.ChangeStatus? ==> IsPending(row)
  {
    buttons := [Button("View Details", View(row)), Button("Delete Report", Delete(row))];
    if IsPending(row) {
      buttons := buttons + [
        Button("Approve Need", ChangeStatus(Member(row, "_id"), "APPROVED", "Need approved.")),
        Button("Reject Need", ChangeStatus(Member(row, "_id"), "REJECTED", "Need rejected."))];
    }
  }

  /** The body `handleStatusChange` sends: the new status and nothing else. */
  function StatusBody(newStatus: string): (body: Json)
    ensures body.Obj? && body.fields.Keys == {"status"}
    ensures Member(body, "status") == Str(newStatus)
  {
    Obj(map["status" := Str(newStatus)])
  }

  /** The success toast: the button's own message, or "Status updated to <status>." without one. */
  function SuccessMessage(newStatus: string, message: string): (m: string)
    ensures message != [] ==> m == message
    ensures message == [] ==> m == "Status updated to " + newStatus + "."
  {
    if message != [] then message else "Status updated to " + newStatus + "."
  }
}
