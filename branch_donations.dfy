/** The branch admin's donation list (client/src/pages/branchAdmin/BranchDonationsPage.jsx):
    the general-fund total, the GENERAL / SPECIFIC / ALL filter, the local
    status update after an approve or reject, and the details modal. */
module BranchDonations {
  import opened Common
  import opened Js
  import opened Seqs

  /** A donation row as the page holds it; `student` and `branch` are whatever the API sent. */
  datatype Row = Row(id: string, amount: int, status: string, student: Json, branch: Json)

  /** `!!donation.student`: a donation naming a student is specific, any other is general. */
  predicate IsSpecific(d: Row)
  {
    Truthy(d.student)
  }

  predicate IsGeneral(d: Row)
  {
    !IsSpecific(d)
  }

  function Amount(d: Row): int { d.amount }

  /** `donations.filter(d => !d.student).reduce((acc, curr) => acc + curr.amount, 0)`. */
  function TotalGeneralFund(donations: seq<Row>): (total: int)
    ensures donations == [] ==> total == 0
    ensures (forall k :: 0 <= k < |donations| ==> IsSpecific(donations[k])) ==> total == 0
  {
    Sum(Filter(donations, IsGeneral), Amount)
  }

  /** The general fund and the specific donations together account for every amount once. */
  lemma GeneralFundPlusSpecific(donations: seq<Row>)
    ensures TotalGeneralFund(donations) + Sum(Filter(donations, IsSpecific), Amount) == Sum(donations, Amount)
  {
    SumSplits(donations, IsGeneral, Amount);
    assert Filter(donations, Not(IsGeneral)) == Filter(donations, IsSpecific) by {
      FilterSame(donations, Not(IsGeneral), IsSpecific);
    }
  }

  /** The `filterType` select: GENERAL, SPECIFIC, or anything else for all. */
  function Keep(filterType: string): Row -> bool
  {
    if filterType == "GENERAL" then IsGeneral
    else if filterType == "SPECIFIC" then IsSpecific
    else (_ => true)
  }

  /** `filteredDonations`. */
  function Filtered(donations: seq<Row>, filterType: string): (r: seq<Row>)
    ensures filterType == "GENERAL" ==> forall d :: d in r <==> d in donations && IsGeneral(d)
    ensures filterType == "SPECIFIC" ==> forall d :: d in r <==> d in donations && IsSpecific(d)
    ensures filterType != "GENERAL" && filterType != "SPECIFIC" ==> r == donations
    ensures IsSubsequence(r, donations)
  {
    FilterIsSubsequence(donations, Keep(filterType));
    FilterKeepsAll(donations, Keep(filterType));
    Filter(donations, Keep(filterType))
  }

  /** GENERAL and SPECIFIC split the ALL list between them: every donation is in exactly one. */
  lemma FiltersPartition(donations: seq<Row>)
    ensures multiset(Filtered(donations, "GENERAL")) + multiset(Filtered(donations, "SPECIFIC"))
      == multiset(Filtered(donations, "ALL"))
  {
    FilterPartition(donations, IsGeneral);
    FilterSame(donations, Not(IsGeneral), IsSpecific);
  }

  /** `prev.map(d => d._id === donationId ? { ...d, status: newStatus } : d)`. */
  function WithStatus(donations: seq<Row>, id: string, status: string): (r: seq<Row>)
    ensures |r| == |donations|
    ensures forall k :: 0 <= k < |r| ==>
      r[k].(status := donations[k].status) == donations[k]
      && r[k].status == (if donations[k].id == id then status else donations[k].status)
  {
    seq(|donations|, k requires 0 <= k < |donations| =>
      if donations[k].id == id then donations[k].(status := status) else donations[k])
  }

  /** `donation._id.slice(-6)`: the last six characters, or all of a shorter id. */
  function LastSix(s: string): (r: string)
    ensures |r| == if |s| < 6 then |s| else 6
    ensures r == s[|s| - |r|..]
  {
    if |s| < 6 then s else s[|s| - 6..]
  }

  const ReviewPrefix := "Review Donation ID: "
  const DetailsPrefix := "Details for Donation ID: "

  /** `getHeaderTitle`. */
  function HeaderTitle(d: Row): (title: string)
    ensures d.status == "PENDING" ==> title == ReviewPrefix + LastSix(d.id)
    ensures d.status != "PENDING" ==> title == DetailsPrefix + LastSix(d.id)
  {
    (if d.status == "PENDING" then ReviewPrefix else DetailsPrefix) + LastSix(d.id)
  }

  /** The modal title starts with "Review" exactly for a PENDING donation. */
  lemma ReviewIffPending(d: Row)
    ensures HeaderTitle(d)[..6] == "Review" <==> d.status == "PENDING"
  {
    var prefix := if d.status == "PENDING" then ReviewPrefix else DetailsPrefix;
    assert HeaderTitle(d) == prefix + LastSix(d.id);
    assert HeaderTitle(d)[..6] == prefix[..6];
    assert ReviewPrefix[..6] == "Review";
    assert DetailsPrefix[..6] == "Detail";
  }

  /** `{ ...donationData, branch: branchDetails }`. */
  function WithBranch(d: Row, branchDetails: Json): (r: Row)
    ensures r.branch == branchDetails
    ensures r.(branch := d.branch) == d
  {
    d.(branch := branchDetails)
  }

  /** The page state that `handleDonationAction` and `handleViewDetails` update. */
  class DonationsBoard {
    var donations: seq<Row>
    var selected: Option<Row>
    var branchDetails: Json

    constructor(loaded: seq<Row>, details: Json)
      ensures donations == loaded && selected.None? && branchDetails == details
    {
      donations := loaded;
      selected := None;
      branchDetails := details;
    }

    /** `handleViewDetails`: the chosen row, shown with the loaded branch. */
    method ViewDetails(d: Row)
      modifies this
      ensures selected == Some(WithBranch(d, branchDetails))
      ensures donations == old(donations) && branchDetails == old(branchDetails)
    {
      selected := Some(WithBranch(d, branchDetails));
    }

    /** `handleDonationAction` after its request succeeds: only the matching row,
        and only its status, changes; the open modal shows the new status. */
    method Act(id: string, newStatus: string)
      modifies this
      ensures donations == WithStatus(old(donations), id, newStatus)
      ensures old(selected).Some? ==> selected == Some(old(selected).value.(status := newStatus))
      ensures old(selected).None? ==> selected.None?
      ensures branchDetails == old(branchDetails)
    {
      donations := WithStatus(donations, id, newStatus);
      if selected.Some? {
        selected := Some(selected.value.(status := newStatus));
      }
    }
  }
}
