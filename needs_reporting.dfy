/** The branch admin's need reports (client/src/pages/branchAdmin/NeedsReportingPage.jsx):
    which needs are shown, the PENDING-only edit and delete, the body the form
    submits and the row buttons. */
module NeedsReporting {
  import opened Common
  import opened Js
  import opened Seqs
  import opened BranchScope
  import NeedReports

  /** `(data.needs || []).filter(...)`: None stands for a missing list. */
  function NeedsForBranch(needs: Option<seq<Json>>, key: Json): (r: seq<Json>)
    ensures needs.None? ==> r == []
    ensures needs.Some? ==> forall n :: n in r <==> n in needs.value && NeedInScope(n, key)
    ensures needs.Some? ==> IsSubsequence(r, needs.value)
  {
    var all := if needs.Some? then needs.value else [];
    FilterIsSubsequence(all, (n: Json) => NeedInScope(n, key));
    Filter(all, (n: Json) => NeedInScope(n, key))
  }

  predicate IsPending(row: Json)
  {
    Member(row, "status") == Str("PENDING")
  }

  const EditRefusedMessage := "Only pending reports can be edited."
  const DeleteRefusedMessage := "Only pending reports can be deleted."


  /** The page's form, toast and delete-confirmation state. */
  class ReportsPage {
    var toast: Option<Toast>
    var selected: Json
    var formMode: FormMode
    var formOpen: bool
    var deleteId: Json
    var confirmOpen: bool

    constructor()
      ensures toast.None? && selected == Null && formMode == Add && !formOpen
      ensures deleteId == Null && !confirmOpen
    {
      toast := None;
      selected := Null;
      formMode := Add;
      formOpen := false;
      deleteId := Null;
      confirmOpen := false;
    }

    /** `handleEdit`: a non-PENDING row is refused with an error toast and the form stays as it was. */
    method StartEdit(row: Json)
      modifies this
      ensures !IsPending(row) ==>
        toast == Some(Toast(Str(EditRefusedMessage), "error")) && selected == old(selected)
        && formMode == old(formMode) && formOpen == old(formOpen)
      ensures IsPending(row) ==>
        toast == old(toast) && selected == row && formMode == Edit && formOpen
      ensures deleteId == old(deleteId) && confirmOpen == old(confirmOpen)
    {
      if !IsPending(row) {
        toast := Some(Toast(Str(EditRefusedMessage), "error"));
        return;
      }
      selected := row;
      formMode := Edit;
      formOpen := true;
    }

    /** `handleDelete`: a non-PENDING row is refused and nothing is queued for deletion. */
    method StartDelete(row: Json)
      modifies this
      ensures !IsPending(row) ==>
        toast == Some(Toast(Str(DeleteRefusedMessage), "error"))
        && deleteId == old(deleteId) && confirmOpen == old(confirmOpen)
      ensures IsPending(row) ==>
        toast == old(toast) && deleteId == Member(row, "_id") && confirmOpen
      ensures selected == old(selected) && formMode == old(formMode) && formOpen == old(formOpen)
    {
      if !IsPending(row) {
        toast := Some(Toast(Str(DeleteRefusedMessage), "error"));
        return;
      }
      deleteId := Member(row, "_id");
      confirmOpen := true;
    }
  }

  /** The body `handleFormSubmit` sends: the three form fields, the user's branch
      key, and PENDING on add or the edited need's own status on edit. */
  function SubmitBody(form: Json, key: Json, mode: FormMode, selected: Json): (body: Json)
    ensures body.Obj? && body.fields.Keys == {"title", "description", "quantityOrAmount", "branch", "status"}
    ensures Member(body, "branch") == key
    ensures mode == Add ==> Member(body, "status") == Str("PENDING")
    ensures mode == Edit ==> Member(body, "status") == Member(selected, "status")
    ensures forall f :: f in {"title", "description", "quantityOrAmount"} ==> Member(body, f) == Member(form, f)
  {
    Obj(map["title" := Member(form, "title"),
            "description" := Member(form, "description"),
            "quantityOrAmount" := Member(form, "quantityOrAmount"),
            "branch" := key,
            "status" := if mode == Add then Str("PENDING") else Member(selected, "status")])
  }

  /** An edit of a PENDING need, opened through `handleEdit`, resubmits it as PENDING. */
  lemma EditKeepsPending(form: Json, key: Json, row: Json)
    requires IsPending(row)
    ensures Member(SubmitBody(form, key, Edit, row), "status") == Str("PENDING")
  {
  }

  /** What a row button does. */
  datatype Action = View | OpenEdit | OpenDelete | Warn(message: string)
  datatype Button = Button(title: string, action: Action)

  /** `getButtons`: edit and delete are wired to their handlers only for a PENDING row;
      otherwise they only show a warning. */
  function Buttons(row: Json): (buttons: seq<Button>)
    ensures |buttons| == 3 && buttons[0] == Button("View Details", View)
    ensures IsPending(row) <==> buttons[1].action == OpenEdit
    ensures IsPending(row) <==> buttons[2].action == OpenDelete
    ensures !IsPending(row) ==>
      buttons[1] == Button("Cannot Edit", Warn(EditRefusedMessage))
      && buttons[2] == Button("Cannot Delete", Warn(DeleteRefusedMessage))
  {
    if IsPending(row) then
      [Button("View Details", View), Button("Edit", OpenEdit), Button("Delete", OpenDelete)]
    else
      [Button("View Details", View), Button("Cannot Edit", Warn(EditRefusedMessage)),
       Button("Cannot Delete", Warn(DeleteRefusedMessage))]
  }

  /** `getStatusDisplay` as written: APPROVED and REJECTED have their own label,
      every other status, FULFILLED included, reads Pending. */
  function StatusLabelAsWritten(status: Json): (l: NeedReports.Label)
    ensures l != NeedReports.Fulfilled
  {
    if status == Str("APPROVED") then NeedReports.Approved
    else if status == Str("REJECTED") then NeedReports.Rejected
    else NeedReports.Pending
  }

  /** A FULFILLED need is shown to its branch as Pending, while the head office sees Fulfilled. */
  lemma FulfilledShownAsPending()
    ensures StatusLabelAsWritten(Str("FULFILLED")) == NeedReports.Pending
    ensures StatusLabel(Str("FULFILLED")) == NeedReports.Fulfilled
  {
  }

  /** The status column with FULFILLED given its own label, as the head office page does. */
  function StatusLabel(status: Json): (l: NeedReports.Label)
    ensures l == NeedReports.Pending <==>
      status != Str("APPROVED") && status != Str("REJECTED") && status != Str("FULFILLED")
    ensures status != Str("FULFILLED") ==> l == StatusLabelAsWritten(status)
  {
    NeedReports.StatusLabel(status)
  }
}
