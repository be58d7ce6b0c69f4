/** The donation collection and its service (server/src/services/donation.services.js).
    The collection is kept in creation order, each record stamped with a
    `createdAt` taken from a counter that only grows; `sort({ createdAt: -1 })`
    is then the reverse of that order. */
module Donations {
  import opened Common
  import opened Schemas
  import opened Seqs

  const NotFoundMessage := "Donation not found"
  const DeletedMessage := "Donation deleted successfully"

  /** The fields an update body may set; an absent field is left as it is.
      `findByIdAndUpdate` runs no validators, so none are applied here. */
  datatype DonationPatch = DonationPatch(
    donor: Option<Id>, branch: Option<Id>, amount: Option<int>,
    receiptImage: Option<string>, status: Option<string>, notes: Option<string>)

  function Pick<T>(given: Option<T>, current: T): T
  {
    if given.Some? then given.value else current
  }

  /** The record after `findByIdAndUpdate(id, patch, { new: true })`. */
  function Merge(d: Donation, p: DonationPatch): (r: Donation)
    ensures r.id == d.id && r.createdAt == d.createdAt
    ensures r.donor == (if p.donor.Some? then p.donor.value else d.donor)
    ensures r.branch == (if p.branch.Some? then p.branch.value else d.branch)
    ensures r.amount == (if p.amount.Some? then p.amount.value else d.amount)
    ensures r.receiptImage == (if p.receiptImage.Some? then p.receiptImage.value else d.receiptImage)
    ensures r.status == (if p.status.Some? then p.status.value else d.status)
    ensures r.notes == (if p.notes.Some? then p.notes.value else d.notes)
  {
    d.(donor := Pick(p.donor, d.donor), branch := Pick(p.branch, d.branch),
       amount := Pick(p.amount, d.amount), receiptImage := Pick(p.receiptImage, d.receiptImage),
       status := Pick(p.status, d.status), notes := Pick(p.notes, d.notes))
  }

  const NoChange := DonationPatch(None, None, None, None, None, None)

  /** An empty update leaves the record as it was, and repeating an update changes nothing more. */
  lemma MergeLaws(d: Donation, p: DonationPatch)
    ensures Merge(d, NoChange) == d
    ensures Merge(Merge(d, p), p) == Merge(d, p)
  {
  }

  function KeyOf(d: Donation): nat { d.id }
  function Stamp(d: Donation): int { d.createdAt }

  /** Creation order: distinct ids, strictly increasing `createdAt`. */
  predicate Before(a: Donation, b: Donation)
  {
    a.id != b.id && a.createdAt < b.createdAt
  }

  ghost predicate Ordered(s: seq<Donation>)
  {
    Pairwise(s, Before)
  }

  lemma OrderedFilter(s: seq<Donation>, p: Donation -> bool)
    ensures Ordered(s) ==> Ordered(Filter(s, p))
  {
    if Ordered(s) {
      FilterPairwise(s, p, Before);
    }
  }

  /** Any query over an ordered collection, reversed, is newest first. */
  lemma OrderedFilterNewestFirst(s: seq<Donation>, p: Donation -> bool)
    ensures Ordered(s) ==> StrictlyDecreasing(NewestFirst(Filter(s, p)), Stamp)
  {
    if Ordered(s) {
      OrderedFilter(s, p);
      NewestFirstSorted(Filter(s, p), Stamp);
    }
  }

  // ---------------------------------------------------------------- queries

  /** `getAllDonations`: every donation, newest first. */
  function GetAll(s: seq<Donation>): (r: ServiceResult<seq<Donation>>)
    ensures r.status == Success && r.data.Some?
    ensures multiset(r.data.value) == multiset(s)
    ensures Ordered(s) ==> StrictlyDecreasing(r.data.value, Stamp)
  {
    NewestFirstSameElements(s);
    OrderedFilterNewestFirst(s, _ => true);
    FilterKeepsAll(s, _ => true);
    Ok(NewestFirst(s))
  }

  /** `getDonationById`. */
  function GetById(s: seq<Donation>, id: Id): (r: ServiceResult<Donation>)
    ensures r.status == Success <==> exists k :: 0 <= k < |s| && s[k].id == id
    ensures r.status == Success ==> r.data.Some? && r.data.value in s && r.data.value.id == id
    ensures r.status != Success ==> r == Fail(NotFound, NotFoundMessage)
  {
    match IndexOf(s, KeyOf, id)
    case None => Fail(NotFound, NotFoundMessage)
    case Some(i) => Ok(s[i])
  }

  /** The donations matching a query, newest first. */
  function Matching(s: seq<Donation>, p: Donation -> bool): (r: seq<Donation>)
    ensures forall x :: x in r <==> x in s && p(x)
    ensures Ordered(s) ==> StrictlyDecreasing(r, Stamp)
  {
    var f := Filter(s, p);
    NewestFirstSameElements(f);
    OrderedFilterNewestFirst(s, p);
    NewestFirst(f)
  }

  /** `getDonationsByDonor`: exactly the donor's donations, newest first. */
  function ByDonor(s: seq<Donation>, donor: Id): (r: ServiceResult<seq<Donation>>)
    ensures r.status == Success && r.data.Some?
    ensures forall x :: x in r.data.value <==> x in s && x.donor == donor
    ensures Ordered(s) ==> StrictlyDecreasing(r.data.value, Stamp)
  {
    Ok(Matching(s, (d: Donation) => d.donor == donor))
  }

  /** `getDonationsByBranch`: exactly the branch's donations, newest first. */
  function ByBranch(s: seq<Donation>, branch: Id): (r: ServiceResult<seq<Donation>>)
    ensures r.status == Success && r.data.Some?
    ensures forall x :: x in r.data.value <==> x in s && x.branch == branch
    ensures Ordered(s) ==> StrictlyDecreasing(r.data.value, Stamp)
  {
    Ok(Matching(s, (d: Donation) => d.branch == branch))
  }

  /** The collection without the record whose id is `id`. */
  function Without(s: seq<Donation>, id: Id): (r: seq<Donation>)
    ensures forall x :: x in r <==> x in s && x.id != id
    ensures Ordered(s) ==> Ordered(r)
  {
    OrderedFilter(s, (d: Donation) => d.id != id);
    Filter(s, (d: Donation) => d.id != id)
  }

  /** Once a record is deleted no lookup finds it, and every other record is still found. */
  lemma DeleteThenGet(s: seq<Donation>, id: Id, other: Id)
    requires other != id
    ensures GetById(Without(s, id), id).status == NotFound
    ensures GetById(Without(s, id), other).status == GetById(s, other).status
  {
    var r := Without(s, id);
    if GetById(s, other).status == Success {
      var k :| 0 <= k < |s| && s[k].id == other;
      assert s[k] in r;
    }
  }

  /** In an ordered collection each id names one record, so a lookup finds exactly the record stored under it. */
  lemma GetFindsStored(s: seq<Donation>, k: nat)
    requires Ordered(s) && k < |s|
    ensures GetById(s, s[k].id) == Ok(s[k])
  {
    var i := IndexOf(s, KeyOf, s[k].id).value;
    assert i == k;
  }

  // ---------------------------------------------------------------- what the controllers hand over

  /** The fields of a donation request body (`req.body`) that reach the service. */
  datatype DonationBody = DonationBody(
    donor: Option<Id>, branch: Option<Id>, amount: Option<int>, transactionId: Option<string>,
    receiptImage: Option<string>, status: Option<string>, notes: Option<string>)

  /** `req.file?.path || req.body.receiptImage`: the uploaded file's path wins when there is one. */
  function ReceiptImage(file: Option<string>, body: DonationBody): (r: Option<string>)
    ensures file.Some? && file.value != [] ==> r == file
    ensures (file.None? || file.value == []) ==> r == body.receiptImage
  {
    if file.Some? && file.value != [] then file else body.receiptImage
  }

  /** `req.body.notes || ""`. */
  function NotesOrEmpty(body: DonationBody): (r: Option<string>)
    ensures r.Some?
    ensures body.notes.Some? && body.notes.value != [] ==> r == body.notes
    ensures body.notes.None? || body.notes.value == [] ==> r == Some("")
  {
    if body.notes.Some? && body.notes.value != [] then body.notes else Some("")
  }

  /** `{ ...req.body }` with `receiptImage` replaced by the uploaded file's path when a file came. */
  function UpdatePatch(body: DonationBody, file: Option<string>): (p: DonationPatch)
    ensures p.receiptImage == (if file.Some? then file else body.receiptImage)
    ensures p.donor == body.donor && p.branch == body.branch && p.amount == body.amount
    ensures p.status == body.status && p.notes == body.notes
  {
    DonationPatch(body.donor, body.branch, body.amount,
                  if file.Some? then file else body.receiptImage, body.status, body.notes)
  }

  /** The data a create hands to `Donation.create` never carries a status, so every
      donation is created PENDING whatever the body says. */
  lemma CreatedPending(id: Id, now: nat, donor: Option<Id>, body: DonationBody, file: Option<string>)
    ensures var input := DonationInput(donor, body.branch, body.amount, ReceiptImage(file, body),
                                       None, NotesOrEmpty(body), body.transactionId);
      NewDonation(id, now, input).Valid? ==> NewDonation(id, now, input).doc.status == "PENDING"
  {
  }

  // ---------------------------------------------------------------- the collection

  class DonationStore {
    var donations: seq<Donation>
    var nextId: nat
    var clock: nat

    ghost predicate Valid()
      reads this
    {
      Ordered(donations)
      && forall k :: 0 <= k < |donations| ==> donations[k].id < nextId && donations[k].createdAt < clock
    }

    constructor()
      ensures Valid() && donations == []
    {
      donations := [];
      nextId := 0;
      clock := 0;
    }

    /** `createDonation`: `Donation.create` validates and throws on a bad record;
        the service does not catch, so the caller sees the throw. */
    method Create(input: DonationInput) returns (o: Outcome<Donation>)
      requires Valid()
      modifies this
      ensures Valid()
      ensures NewDonation(old(nextId), old(clock), input).Invalid? ==>
        o.Threw? && donations == old(donations)
      ensures NewDonation(old(nextId), old(clock), input).Valid? ==>
        var d := NewDonation(old(nextId), old(clock), input).doc;
        o == Returned(Ok(d)) && donations == old(donations) + [d]
    {
      var v := NewDonation(nextId, clock, input);
      if v.Invalid? {
        o := Threw("Donation validation failed");
        return;
      }
      donations := donations + [v.doc];
      nextId := nextId + 1;
      clock := clock + 1;
      o := Returned(Ok(v.doc));
    }

    /** `updateDonation`: merge the given fields into the record, or NOT_FOUND. */
    method Update(id: Id, patch: DonationPatch) returns (r: ServiceResult<Donation>)
      requires Valid()
      modifies this
      ensures Valid() && nextId == old(nextId) && clock == old(clock)
      ensures IndexOf(old(donations), KeyOf, id).None? ==>
        r == Fail(NotFound, NotFoundMessage) && donations == old(donations)
      ensures IndexOf(old(donations), KeyOf, id).Some? ==>
        var k := IndexOf(old(donations), KeyOf, id).value;
        donations == old(donations)[k := Merge(old(donations)[k], patch)] && r == Ok(donations[k])
    {
      var found := IndexOf(donations, KeyOf, id);
      if found.None? {
        r := Fail(NotFound, NotFoundMessage);
        return;
      }
      var k := found.value;
      var updated := Merge(donations[k], patch);
      donations := donations[k := updated];
      r := Ok(updated);
    }

    /** `deleteDonation`: remove the record, or NOT_FOUND. */
    method Delete(id: Id) returns (r: ServiceResult<Donation>)
      requires Valid()
      modifies this
      ensures Valid() && nextId == old(nextId) && clock == old(clock)
      ensures donations == Without(old(donations), id)
      ensures IndexOf(old(donations), KeyOf, id).None? ==> r == Fail(NotFound, NotFoundMessage)
      ensures IndexOf(old(donations), KeyOf, id).Some? ==>
        r == ServiceResult(Success, None, DeletedMessage)
    {
      var found := IndexOf(donations, KeyOf, id);
      donations := Without(donations, id);
      if found.None? {
        r := Fail(NotFound, NotFoundMessage);
      } else {
        r := ServiceResult(Success, None, DeletedMessage);
      }
    }
  }
}
