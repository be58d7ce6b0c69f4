/** The donor's own donations page (client/src/pages/donorAdmin/DonationPage.jsx):
    which cached list it shows, the body its form submits, and the data an
    edit starts from. */
module DonorDonations {
  import opened Common
  import opened Js
  import opened FormModal

  /** `resource`: the donor-specific list key, or null without a stored user. */
  function ResourceKey(user: Json): (r: Option<string>)
    ensures r.Some? <==> Truthy(user)
    ensures r.Some? ==> r.value == "donations/donor/" + Template(Member(user, "_id"))
  {
    if Truthy(user) then Some("donations/donor/" + Template(Member(user, "_id"))) else None
  }

  /** `data[resource] || []`: the cached list under that key (a null key reads
      the property "null"), or an empty list when nothing is cached. */
  function Donations(cache: map<string, seq<Json>>, user: Json): (r: seq<Json>)
    ensures Truthy(user) && ResourceKey(user).value in cache ==> r == cache[ResourceKey(user).value]
    ensures Truthy(user) && ResourceKey(user).value !in cache ==> r == []
    ensures !Truthy(user) ==> r == if "null" in cache then cache["null"] else []
  {
    var key := match ResourceKey(user) case Some(k) => k case None => "null";
    if key in cache then cache[key] else []
  }

  /** The lists the mount effect fetches: the donor's own list when there is a
      user, and the branches in every case. */
  function Fetches(user: Json): (r: seq<string>)
    ensures |r| >= 1 && r[|r| - 1] == "branches"
    ensures |r| == 2 <==> Truthy(user)
    ensures Truthy(user) ==> r[0] == ResourceKey(user).value
  {
    (if Truthy(user) then [ResourceKey(user).value] else []) + ["branches"]
  }

  /** The body `handleFormSubmit` sends: the form's branch, amount and receipt,
      the notes or "", and the session user's id as donor. */
  function Body(form: FormData, user: Json): (b: Json)
    ensures b.Obj? && b.fields.Keys == {"branch", "amount", "receiptImage", "notes", "donor"}
    ensures forall k :: k in {"branch", "amount", "receiptImage"} ==> Member(b, k) == Lookup(form, k)
    ensures Member(b, "notes") == Or(Lookup(form, "notes"), Str(""))
    ensures Member(b, "donor") == Member(user, "_id")
  {
    Obj(map["branch" := Lookup(form, "branch"), "amount" := Lookup(form, "amount"),
            "receiptImage" := Lookup(form, "receiptImage"), "notes" := Or(Lookup(form, "notes"), Str("")),
            "donor" := Member(user, "_id")])
  }

  /** Notes are never sent undefined. */
  lemma NotesDefaultEmpty(form: FormData, user: Json)
    ensures var notes := Member(Body(form, user), "notes");
      notes == Str("") || (Truthy(notes) && notes == Lookup(form, "notes"))
  {
  }

  const CreatedMessage := "Donation created successfully."
  const UpdatedMessage := "Donation updated successfully."
  const ErrorMessage := "An error occurred."
  const UnexpectedMessage := "An unexpected error occurred."

  /** The page's form and toast state. */
  class DonationsPage {
    var formMode: FormMode
    var selected: Json
    var formOpen: bool
    var isSubmitting: bool
    var toast: Option<Toast>

    constructor()
      ensures formMode == Add && selected == Null && !formOpen && !isSubmitting && toast.None?
    {
      formMode := Add;
      selected := Null;
      formOpen := false;
      isSubmitting := false;
      toast := None;
    }

    /** `handleFormSubmit`: an add posts to `donations/create`, an edit updates
        the selected donation. Without a stored user `user._id` throws before
        anything is sent, and the `catch` shows the unexpected-error toast. */
    method Submit(form: FormData, user: Json, reply: Reply) returns (req: Option<Request>)
      modifies this
      ensures formMode == old(formMode) && selected == old(selected) && !isSubmitting
      ensures req.None? <==> Nullish(user)
      ensures req.None? ==> toast == Some(Toast(Str(UnexpectedMessage), "error")) && formOpen == old(formOpen)
      ensures req.Some? && formMode == Add ==> req.value == Create("donations/create", Body(form, user))
      ensures req.Some? && formMode == Edit ==> req.value == Update("donations", Member(selected, "_id"), Body(form, user))
      ensures req.Some? && reply.Fulfilled? ==>
        toast == Some(Toast(Str(if formMode == Add then CreatedMessage else UpdatedMessage), "success")) && !formOpen
      ensures req.Some? && reply.Rejected? ==>
        toast == Some(Toast(Or(reply.payload, Str(ErrorMessage)), "error")) && formOpen == old(formOpen)
      ensures req.Some? && reply.Thrown? ==>
        toast == Some(Toast(Str(UnexpectedMessage), "error")) && formOpen == old(formOpen)
    {
      isSubmitting := true;
      if Nullish(user) {
        toast := Some(Toast(Str(UnexpectedMessage), "error"));
        isSubmitting := false;
        return None;
      }
      var body := Body(form, user);
      if formMode == Add {
        req := Some(Create("donations/create", body));
      } else {
        req := Some(Update("donations", Member(selected, "_id"), body));
      }
      match reply {
        case Fulfilled =>
          toast := Some(Toast(Str(if formMode == Add then CreatedMessage else UpdatedMessage), "success"));
          formOpen := false;
        case Rejected(payload) =>
          toast := Some(Toast(Or(payload, Str(ErrorMessage)), "error"));
        case Thrown =>
          toast := Some(Toast(Str(UnexpectedMessage), "error"));
      }
      isSubmitting := false;
    }
  }

  /** `getFormFields`: branch, amount and receipt are required, notes are not. */
  const FormFields: seq<Field> := [
    Field("branch", "Branch", true, Undefined),
    Field("amount", "Amount", true, Undefined),
    Field("receiptImage", "Receipt", true, Undefined),
    Field("notes", "Notes", false, Undefined)]

  /** Of the form's four fields, exactly branch, amount and receipt are required. */
  lemma RequiredFields()
    ensures |FormFields| == 4
    ensures forall i :: 0 <= i < |FormFields| ==>
      (FormFields[i].required <==> FormFields[i].name in {"branch", "amount", "receiptImage"})
  {
  }

  /** `getInitialData`: an edit starts from the donation's branch id, amount and
      notes, and no receipt; an add starts empty. */
  function InitialData(mode: FormMode, selected: Json): (d: FormData)
    ensures mode == Add || !Truthy(selected) ==> d == map[]
    ensures mode == Edit && Truthy(selected) ==>
      d.Keys == {"branch", "amount", "notes"} && "receiptImage" !in d
      && d["branch"] == Member(Member(selected, "branch"), "_id")
      && d["amount"] == Member(selected, "amount") && d["notes"] == Member(selected, "notes")
  {
    if mode == Edit && Truthy(selected) then
      map["branch" := Member(Member(selected, "branch"), "_id"), "amount" := Member(selected, "amount"),
          "notes" := Member(selected, "notes")]
    else map[]
  }

  /** The form's own default for the receipt is "". */
  lemma ReceiptDefaultEmpty()
    ensures Defaults(FormFields)["receiptImage"] == Str("")
  {
    assert DistinctNames(FormFields);
    DefaultsPerField(FormFields, 2);
  }

  /** The message the form shows for a missing receipt. */
  lemma ReceiptMessage()
    ensures RequiredMessage(FormFields[2]) == "Receipt is required."
  {
  }

  /** Over any defaults that leave the receipt empty, an edit stops at the receipt. */
  lemma EditStopsAtReceipt(selected: Json, defaults: FormData)
    requires Truthy(selected) && !Truthy(Lookup(defaults, "receiptImage"))
    requires Truthy(Member(Member(selected, "branch"), "_id")) && Truthy(Member(selected, "amount"))
    ensures FirstMissing(FormFields, defaults + InitialData(Edit, selected)) == Some(2)
  {
    var init := InitialData(Edit, selected);
    var data := defaults + init;
    var branch, amount, receipt := FormFields[0], FormFields[1], FormFields[2];
    assert branch.name == "branch" && amount.name == "amount" && receipt.name == "receiptImage" && receipt.required;
    assert !Missing(branch, data) by {
      assert Lookup(data, "branch") == init["branch"];
    }
    assert !Missing(amount, data) by {
      assert Lookup(data, "amount") == init["amount"];
    }
    assert Missing(receipt, data);
    FirstMissingIs(FormFields, data, 2);
  }

  /** An edit of a donation with a branch id and an amount stops at the
      receipt: it starts without one and the receipt is required. */
  lemma EditNeedsNewReceipt(selected: Json)
    requires Truthy(selected)
    requires Truthy(Member(Member(selected, "branch"), "_id")) && Truthy(Member(selected, "amount"))
    ensures FirstMissing(FormFields, Defaults(FormFields) + InitialData(Edit, selected)) == Some(2)
  {
    ReceiptDefaultEmpty();
    EditStopsAtReceipt(selected, Defaults(FormFields));
  }

  /** Since an edit starts without a receipt and the receipt is required, the
      form refuses to submit an edit until a new receipt is chosen, whatever
      the selected donation holds. */
  lemma EditNeverSubmitsWithoutReceipt(selected: Json)
    ensures FirstMissing(FormFields, Defaults(FormFields) + InitialData(Edit, selected)).Some?
  {
    ReceiptDefaultEmpty();
    var data := Defaults(FormFields) + InitialData(Edit, selected);
    assert "receiptImage" !in InitialData(Edit, selected);
    assert Missing(FormFields[2], data);
  }
}
