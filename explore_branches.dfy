/** The donor's branch list (client/src/pages/website/DonorExploreBranchesPage.jsx):
    a case-insensitive search over name and location, and the two buttons on
    each branch card. */
module ExploreBranches {
  import opened Common
  import opened Js
  import opened Text
  import opened Seqs
  import DonatePage

  /** The fields of a listed branch the page reads; the schema requires `name` and `location`. */
  datatype Listed = Listed(id: string, name: string, location: string)

  /** The search test: the lowercased name or location contains the lowercased term. */
  predicate Matches(b: Listed, term: string)
  {
    Contains(ToLower(b.name), ToLower(term)) || Contains(ToLower(b.location), ToLower(term))
  }

  function MatchesTerm(term: string): Listed -> bool
  {
    (b: Listed) => Matches(b, term)
  }

  /** `filteredBranches`: undefined while the list is missing; otherwise the
      matching branches, in list order, and every branch for an empty term. */
  function FilteredBranches(branches: Option<seq<Listed>>, term: string): (r: Option<seq<Listed>>)
    ensures branches.None? <==> r.None?
    ensures branches.Some? ==>
      (forall b :: b in r.value <==> b in branches.value && Matches(b, term))
      && IsSubsequence(r.value, branches.value)
    ensures branches.Some? && term == [] ==> r == branches
  {
    if branches.None? then None
    else
      var s := branches.value;
      FilterIsSubsequence(s, MatchesTerm(term));
      FilterKeepsAll(s, MatchesTerm(term));
      assert term == [] ==> forall b :: b in s ==> Matches(b, term) by {
        if term == [] {
          forall b | b in s ensures Matches(b, term) {
            assert ToLower(term) <= ToLower(b.name);
          }
        }
      }
      Some(Filter(s, MatchesTerm(term)))
  }

  /** The search ignores the case of the term: typing it in capitals finds the same branches. */
  lemma SearchIgnoresCase(branches: Option<seq<Listed>>, term: string)
    ensures FilteredBranches(branches, ToLower(term)) == FilteredBranches(branches, term)
  {
    ToLowerIdempotent(term);
    if branches.Some? {
      FilterSame(branches.value, MatchesTerm(ToLower(term)), MatchesTerm(term));
    }
  }

  /** What a card button does: go to a path, with an optional navigation state. */
  datatype Navigation = Navigation(path: string, state: Json)

  /** `getBranchActions`: Explore opens `/branch/<id>`; Donate opens the form with
      only the branch id and name. */
  function Actions(b: Listed): (acts: seq<(string, Navigation)>)
    ensures |acts| == 2
    ensures acts[0] == ("Explore", Navigation("/branch/" + b.id, Undefined))
    ensures acts[1].0 == "Donate" && acts[1].1.path == DonatePage.DonatePath
    ensures acts[1].1.state == Obj(map["branchId" := Str(b.id), "branchName" := Str(b.name)])
  {
    [("Explore", Navigation("/branch/" + b.id, Undefined)),
     ("Donate", Navigation(DonatePage.DonatePath, Obj(map["branchId" := Str(b.id), "branchName" := Str(b.name)])))]
  }

  /** Donating from a card opens a general-fund donation to that branch: the form
      fetches the branch, posts no student and no category, and names the branch. */
  lemma DonateFromCard(b: Listed, amount: int, fileName: string)
    requires b.id != []
    ensures var t := DonatePage.TargetOf(Actions(b)[1].1.state);
      var body := DonatePage.Body(t, amount, fileName);
      DonatePage.Mount(t) == DonatePage.FetchBranch(Str(b.id))
      && body["branch"] == Str(b.id) && "studentRecipient" !in body && body["category"] == Undefined
      && DonatePage.TargetText(t) == DonatePage.GeneralPrefix + b.name
  {
  }
}
