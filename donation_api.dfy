/** The donation controller without caller checks (server/src/controllers/donation.controller.js):
    each endpoint builds its service input from the request and maps the
    service status to an HTTP code with an if/else; a throw is answered 500. */
module DonationApi {
  import opened Common
  import opened Schemas
  import opened Donations

  const InternalErrorMessage := "Internal server error."

  /** The data `createDonation` builds: the donor is whatever the body names. */
  function CreateInput(body: DonationBody, file: Option<string>): (input: DonationInput)
    ensures input.donor == body.donor && input.branch == body.branch && input.amount == body.amount
    ensures input.receiptImage == ReceiptImage(file, body) && input.notes == NotesOrEmpty(body)
    ensures input.status.None? && input.transactionId.None?
  {
    DonationInput(body.donor, body.branch, body.amount, ReceiptImage(file, body), None, NotesOrEmpty(body), None)
  }

  /** The shape every endpoint shares: SUCCESS answers `okCode` (with the data unless
      `withData` is false), any other status answers `failCode`, a throw answers 500. */
  function Answer<T>(o: Outcome<T>, okCode: int, withData: bool, failCode: int): (r: Response<T>)
    ensures o.Threw? ==> r == Refuse(500, InternalErrorMessage)
    ensures o.Returned? && o.result.status == Success ==>
      r == Reply(okCode, if withData then o.result.data else None)
    ensures o.Returned? && o.result.status != Success ==> r == Refuse(failCode, o.result.message)
  {
    match o
    case Threw(_) => Refuse(500, InternalErrorMessage)
    case Returned(result) =>
      if result.status == Success then Reply(okCode, if withData then result.data else None)
      else Refuse(failCode, result.message)
  }

  /** `createDonation`: 201 on SUCCESS, 400 otherwise. */
  function CreateDonation(body: DonationBody, file: Option<string>,
                          service: DonationInput -> Outcome<Donation>): (r: Response<Donation>)
    ensures service(CreateInput(body, file)).Threw? ==> r == Refuse(500, InternalErrorMessage)
    ensures service(CreateInput(body, file)).Returned? ==>
      var res := service(CreateInput(body, file)).result;
      (r.code == 201 <==> res.status == Success)
      && (res.status == Success ==> r.success && r.data == res.data)
      && (res.status != Success ==> r == Refuse(400, res.message))
  {
    Answer(service(CreateInput(body, file)), 201, true, 400)
  }

  /** `updateDonation`: the body as it came, with the uploaded file's path as `receiptImage`. */
  function UpdateDonation(id: Id, body: DonationBody, file: Option<string>,
                          service: (Id, DonationPatch) -> Outcome<Donation>): (r: Response<Donation>)
    ensures service(id, UpdatePatch(body, file)).Threw? ==> r == Refuse(500, InternalErrorMessage)
    ensures service(id, UpdatePatch(body, file)).Returned? ==>
      var res := service(id, UpdatePatch(body, file)).result;
      (r.code == 200 <==> res.status == Success)
      && (res.status == Success ==> r.success && r.data == res.data)
      && (res.status != Success ==> r == Refuse(400, res.message))
  {
    Answer(service(id, UpdatePatch(body, file)), 200, true, 400)
  }

  /** `deleteDonation`: 204 with `data: null` on SUCCESS, 404 otherwise. */
  function DeleteDonation(id: Id, service: Id -> Outcome<Donation>): (r: Response<Donation>)
    ensures service(id).Threw? ==> r == Refuse(500, InternalErrorMessage)
    ensures service(id).Returned? ==>
      (r.code == 204 <==> service(id).result.status == Success)
      && (service(id).result.status != Success ==> r == Refuse(404, service(id).result.message))
    ensures r.data == None
  {
    Answer(service(id), 204, false, 404)
  }

  /** `getAllDonations`: a non-SUCCESS status is a server error (500). */
  function GetAllDonations(o: Outcome<seq<Donation>>): (r: Response<seq<Donation>>)
    ensures r.success <==> o.Returned? && o.result.status == Success
    ensures r.success ==> r.code == 200 && r.data == o.result.data
    ensures !r.success ==> r.code == 500
  {
    Answer(o, 200, true, 500)
  }

  /** `getDonationById`, `getDonationsByDonor`, `getDonationsByBranch`: non-SUCCESS is 404. */
  function GetOne<T>(o: Outcome<T>): (r: Response<T>)
    ensures r.success <==> o.Returned? && o.result.status == Success
    ensures r.success ==> r.code == 200 && r.data == o.result.data
    ensures o.Threw? ==> r == Refuse(500, InternalErrorMessage)
    ensures o.Returned? && o.result.status != Success ==> r == Refuse(404, o.result.message)
  {
    Answer(o, 200, true, 404)
  }

  /** Against the donation service itself: a lookup of a missing id is 404, of a stored one 200 with the record. */
  lemma GetByIdAgainstService(s: seq<Donation>, id: Id)
    ensures GetOne(Returned(GetById(s, id))).code == 404 <==> forall k :: 0 <= k < |s| ==> s[k].id != id
    ensures GetOne(Returned(GetById(s, id))).code == 200 ==>
      GetOne(Returned(GetById(s, id))).data.Some? && GetOne(Returned(GetById(s, id))).data.value.id == id
  {
  }

  /** Listing by donor never fails against the service: it always answers 200 with exactly that donor's donations. */
  lemma ByDonorAgainstService(s: seq<Donation>, donor: Id)
    ensures var r := GetOne(Returned(ByDonor(s, donor)));
      r.code == 200 && r.data.Some? && forall x :: x in r.data.value <==> x in s && x.donor == donor
  {
  }
}
