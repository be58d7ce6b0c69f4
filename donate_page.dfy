/** The public donation form (client/src/pages/website/DonatePage.jsx): where
    it sends a visitor without a target, the branch payment details it loads,
    the checks before a donation is posted, and the body it posts. */
module DonatePage {
  import opened Common
  import opened Js

  /** `location.state || {}`: what the branch pages hand over when they open the form. */
  datatype Target = Target(branchId: Json, branchName: Json, studentId: Json, studentName: Json, donationType: Json)

  /** Destructuring the navigation state; a missing state, or one that is not an
      object, leaves every part undefined. */
  function TargetOf(state: Json): (t: Target)
    ensures !state.Obj? ==> t == Target(Undefined, Undefined, Undefined, Undefined, Undefined)
    ensures t.branchId == Member(state, "branchId") && t.branchName == Member(state, "branchName")
      && t.studentId == Member(state, "studentId") && t.studentName == Member(state, "studentName")
      && t.donationType == Member(state, "donationType")
  {
    Target(Member(state, "branchId"), Member(state, "branchName"), Member(state, "studentId"),
           Member(state, "studentName"), Member(state, "donationType"))
  }

  const TargetNotSetMessage := "Error: Donation target not set."
  const ExplorePath := "/explore-branches"
  const DonatePath := "/donate"
  const SuccessPath := "/donation-success"
  const PaymentMissingMessage := "Could not load payment details for the branch."
  const FetchFailedMessage := "Failed to fetch branch details."
  const InvalidInputMessage := "Please enter a valid amount and upload a receipt."
  const SubmittedMessage := "Donation submitted! Awaiting Admin verification."
  const SubmitFailedMessage := "Failed to submit donation."
  const UnexpectedMessage := "An unexpected error occurred."
  const ReceiptPrefix := "https://your-server.com/receipts/"
  const PlaceholderDonor := "USER_ID_FROM_SESSION"
  const SpecificStudent := "SPECIFIC_STUDENT"
  const SponsorPrefix := "You are sponsoring: "
  const GeneralPrefix := "General Fund for: "

  /** What the mount effect does: without a branch id, an error toast and a
      redirect to the branch list; otherwise the branch is fetched. */
  datatype MountStep = Redirect(toast: Toast, path: string) | FetchBranch(id: Json)

  function Mount(t: Target): (m: MountStep)
    ensures m.Redirect? <==> !Truthy(t.branchId)
    ensures m.Redirect? ==> m == Redirect(Toast(Str(TargetNotSetMessage), "error"), ExplorePath)
    ensures m.FetchBranch? ==> m.id == t.branchId
  {
    if !Truthy(t.branchId) then Redirect(Toast(Str(TargetNotSetMessage), "error"), ExplorePath)
    else FetchBranch(t.branchId)
  }

  /** How the branch fetch settles: its payload, or a rejection reaching `.catch`. */
  datatype Fetch = Fetched(payload: Json) | FetchThrew

  /** The body posted for a donation: the amount as a number, the receipt URL,
      the placeholder donor, the branch and category from the target, and a
      `studentRecipient` only when the target names a student. */
  function Body(t: Target, amount: int, fileName: string): (b: map<string, Json>)
    ensures b.Keys == {"amount", "receiptImage", "donor", "branch", "category"}
      + (if Truthy(t.studentId) then {"studentRecipient"} else {})
    ensures b["amount"] == Num(amount) && b["branch"] == t.branchId && b["category"] == t.donationType
    ensures b["receiptImage"] == Str(ReceiptPrefix + fileName) && b["donor"] == Str(PlaceholderDonor)
    ensures Truthy(t.studentId) ==> b["studentRecipient"] == t.studentId
  {
    var base := map["amount" := Num(amount), "receiptImage" := Str(ReceiptPrefix + fileName),
                    "donor" := Str(PlaceholderDonor), "branch" := t.branchId, "category" := t.donationType];
    if Truthy(t.studentId) then base["studentRecipient" := t.studentId] else base
  }

  /** The receipt's file name can be read back from the URL the body carries. */
  lemma ReceiptNameRecoverable(t: Target, amount: int, fileName: string)
    ensures var url := Body(t, amount, fileName)["receiptImage"].s;
      url[..|ReceiptPrefix|] == ReceiptPrefix && url[|ReceiptPrefix|..] == fileName
  {
  }

  /** `donationTargetText`. */
  function TargetText(t: Target): (r: string)
    ensures t.donationType == Str(SpecificStudent) ==> r == SponsorPrefix + Template(t.studentName)
    ensures t.donationType != Str(SpecificStudent) ==> r == GeneralPrefix + Template(t.branchName)
  {
    if t.donationType == Str(SpecificStudent) then SponsorPrefix + Template(t.studentName)
    else GeneralPrefix + Template(t.branchName)
  }

  /** The text opens with the sponsoring line exactly when the target is one student. */
  lemma TargetTextNamesStudent(t: Target)
    ensures var r := TargetText(t);
      (|r| >= |SponsorPrefix| && r[..|SponsorPrefix|] == SponsorPrefix) <==> t.donationType == Str(SpecificStudent)
  {
    var r := TargetText(t);
    if t.donationType != Str(SpecificStudent) {
      assert r[0] == 'G';
    }
  }

  /** The page's form, toast and payment-details state. `amount` is the number
      input's value as a number (an empty input reads 0); `receipt` is the chosen
      file's name. */
  class DonateForm {
    const target: Target
    var amount: int
    var receipt: Option<string>
    var isSubmitting: bool
    var toast: Option<Toast>
    var paymentInfo: Json
    var loading: bool

    constructor(t: Target)
      ensures target == t && amount == 0 && receipt.None? && !isSubmitting
      ensures toast.None? && paymentInfo == Null && loading
    {
      target := t;
      amount := 0;
      receipt := None;
      isSubmitting := false;
      toast := None;
      paymentInfo := Null;
      loading := true;
    }

    /** The end of the branch fetch: the payment details when the payload has
        them, an error toast otherwise; either way loading ends. */
    method BranchLoaded(f: Fetch)
      modifies this
      ensures !loading
      ensures f.Fetched? && Truthy(Member(f.payload, "paymentInfo")) ==>
        paymentInfo == Member(f.payload, "paymentInfo") && toast == old(toast)
      ensures f.Fetched? && !Truthy(Member(f.payload, "paymentInfo")) ==>
        paymentInfo == old(paymentInfo) && toast == Some(Toast(Str(PaymentMissingMessage), "error"))
      ensures f.FetchThrew? ==>
        paymentInfo == old(paymentInfo) && toast == Some(Toast(Str(FetchFailedMessage), "error"))
      ensures amount == old(amount) && receipt == old(receipt) && isSubmitting == old(isSubmitting)
    {
      match f {
        case Fetched(payload) =>
          if Truthy(payload) && Truthy(Member(payload, "paymentInfo")) {
            paymentInfo := Member(payload, "paymentInfo");
          } else {
            toast := Some(Toast(Str(PaymentMissingMessage), "error"));
          }
        case FetchThrew =>
          toast := Some(Toast(Str(FetchFailedMessage), "error"));
      }
      loading := false;
    }

    /** `handleSubmit`: an amount of 0 or less, or no receipt, is refused with a
        warning and nothing is sent; otherwise the body is sent and the reply
        decides the toast, whether the form is cleared and where to go. */
    method Submit(reply: Reply) returns (sent: Option<map<string, Json>>, nav: Option<string>)
      modifies this
      ensures sent.None? <==> old(amount) <= 0 || old(receipt).None?
      ensures sent.None? ==>
        nav.None? && toast == Some(Toast(Str(InvalidInputMessage), "warning"))
        && amount == old(amount) && receipt == old(receipt) && isSubmitting == old(isSubmitting)
      ensures sent.Some? ==> sent.value == Body(target, old(amount), old(receipt).value) && !isSubmitting
      ensures sent.Some? && reply.Fulfilled? ==>
        toast == Some(Toast(Str(SubmittedMessage), "success")) && amount == 0 && receipt.None?
        && nav == Some(SuccessPath)
      ensures sent.Some? && reply.Rejected? ==>
        toast == Some(Toast(Or(reply.payload, Str(SubmitFailedMessage)), "error"))
        && amount == old(amount) && receipt == old(receipt) && nav.None?
      ensures sent.Some? && reply.Thrown? ==>
        toast == Some(Toast(Str(UnexpectedMessage), "error"))
        && amount == old(amount) && receipt == old(receipt) && nav.None?
      ensures paymentInfo == old(paymentInfo) && loading == old(loading)
    {
      if amount <= 0 || receipt.None? {
        toast := Some(Toast(Str(InvalidInputMessage), "warning"));
        return None, None;
      }
      isSubmitting := true;
      var body := Body(target, amount, receipt.value);
      sent := Some(body);
      nav := None;
      match reply {
        case Fulfilled =>
          toast := Some(Toast(Str(SubmittedMessage), "success"));
          amount := 0;
          receipt := None;
          nav := Some(SuccessPath);
        case Rejected(payload) =>
          toast := Some(Toast(Or(payload, Str(SubmitFailedMessage)), "error"));
        case Thrown =>
          toast := Some(Toast(Str(UnexpectedMessage), "error"));
      }
      isSubmitting := false;
    }
  }
}
