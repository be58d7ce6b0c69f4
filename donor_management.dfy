/** The head admin's donor list (client/src/pages/headAdmin/DonorManagementPage.jsx). */
module DonorManagement {
  import opened Common
  import opened Js
  import opened Seqs

  predicate IsDonor(u: Json)
  {
    StrictEq(Member(u, "role"), Str("DONOR"))
  }

  function DonorTest(): Json -> bool
  {
    (u: Json) => IsDonor(u)
  }

  /** `donorList`: the users whose role is DONOR, in list order; an empty list
      while the users are missing. */
  function DonorList(users: Option<seq<Json>>): (r: seq<Json>)
    ensures users.None? ==> r == []
    ensures users.Some? ==>
      (forall u :: u in r <==> u in users.value && IsDonor(u)) && IsSubsequence(r, users.value)
  {
    if users.None? then []
    else
      FilterIsSubsequence(users.value, DonorTest());
      Filter(users.value, DonorTest())
  }

  /** The list splits the users in two: the donors it shows and the rest, nothing lost or repeated. */
  lemma DonorsAndOthers(users: seq<Json>)
    ensures multiset(DonorList(Some(users))) + multiset(Filter(users, Not(DonorTest()))) == multiset(users)
  {
    FilterPartition(users, DonorTest());
  }
}
