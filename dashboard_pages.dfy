/** The two admin dashboards (client/src/pages/headAdmin/AdminDashboard.jsx and
    client/src/pages/admin/AdminDashboard.jsx): how they load their data, the
    totals they show, and the twelve-month chart of recent students. */
module DashboardPages {
  import opened Common
  import opened Js

  /** The chart's month labels, as the admin page lists them. */
  const MonthNames: seq<string> := ["Jan", "Feb", "Mar", "Apr", "May", "Jun",
                                    "Jul", "Aug", "Sep", "Oct", "Nov", "Dec"]

  function Sum(s: seq<nat>): nat
  {
    if s == [] then 0 else s[0] + Sum(s[1..])
  }

  /** Adding one to one bucket adds one to the total. */
  lemma {:induction false} SumBump(s: seq<nat>, k: nat)
    requires k < |s|
    ensures Sum(s[k := s[k] + 1]) == Sum(s) + 1
  {
    var t := s[k := s[k] + 1];
    if k > 0 {
      assert t[1..] == s[1..][k - 1 := s[k] + 1];
      SumBump(s[1..], k - 1);
    } else {
      assert t[1..] == s[1..];
    }
  }

  lemma {:induction false} SumZeros(s: seq<nat>)
    requires forall i :: 0 <= i < |s| ==> s[i] == 0
    ensures Sum(s) == 0
  {
    if s != [] {
      SumZeros(s[1..]);
    }
  }

  /** `monthlyData` after the `forEach` over `recentStudents`: twelve buckets
      starting at 0, each recent student adding one to the bucket of the month
      (0 to 11) it was created in. A missing list leaves every bucket at 0. */
  method MonthlyCounts(recent: Option<seq<nat>>) returns (counts: array<nat>)
    requires recent.Some? ==> forall i :: 0 <= i < |recent.value| ==> recent.value[i] < 12
    ensures counts.Length == 12
    ensures recent.None? ==> forall m :: 0 <= m < 12 ==> counts[m] == 0
    ensures recent.Some? ==> forall m :: 0 <= m < 12 ==> counts[m] == multiset(recent.value)[m]
    ensures Sum(counts[..]) == if recent.Some? then |recent.value| else 0
  {
    counts := new nat[12](_ => 0);
    SumZeros(counts[..]);
    if recent.None? {
      return;
    }
    var s := recent.value;
    var i := 0;
    while i < |s|
      invariant 0 <= i <= |s|
      invariant forall m :: 0 <= m < 12 ==> counts[m] == multiset(s[..i])[m]
      invariant Sum(counts[..]) == i
    {
      SumBump(counts[..], s[i]);
      counts[s[i]] := counts[s[i]] + 1;
      assert s[..i + 1] == s[..i] + [s[i]];
      i := i + 1;
    }
    assert s[..|s|] == s;
  }

  /** Where the totals come from, in the order the head admin's cards show them. */
  const StatKeys: seq<string> := ["totalStudents", "totalUsers", "totalBranches", "totalDonations"]

  /** The head admin's card values, `dashboardData?.<total> || 0`. */
  function StatValues(data: Json): (vals: seq<Json>)
    ensures |vals| == |StatKeys|
    ensures forall k :: 0 <= k < |vals| ==>
      (Truthy(Member(data, StatKeys[k])) ==> vals[k] == Member(data, StatKeys[k]))
      && (!Truthy(Member(data, StatKeys[k])) ==> vals[k] == Num(0))
  {
    seq(|StatKeys|, k requires 0 <= k < |StatKeys| => Or(Member(data, StatKeys[k]), Num(0)))
  }

  /** No card is ever blank: before the data arrives, or for a missing total, it shows 0. */
  lemma MissingTotalsShowZero(data: Json, k: nat)
    requires k < |StatKeys|
    ensures Truthy(StatValues(data)[k]) || StatValues(data)[k] == Num(0)
    ensures StatValues(Null)[k] == Num(0)
  {
  }

  const NoUserMessage := "Authentication error: No user found."
  const FetchFailedMessage := "Failed to fetch data"

  /** What the dashboard request gives back: the parsed reply, or the message of
      the error `fetch` or the JSON parsing threw. */
  datatype Fetched = Answered(result: Json) | FetchFailed(message: string)

  /** A dashboard's loading state. The admin page (`clears`) also resets the
      error on success and the data on failure; the head admin's page does not. */
  class DashboardPage {
    const clears: bool
    var data: Json
    var loading: bool
    var error: Json

    constructor(clearsOnReply: bool)
      ensures clears == clearsOnReply && data == Null && loading && error == Null
    {
      clears := clearsOnReply;
      data := Null;
      loading := true;
      error := Null;
    }

    /** The mount effect: without a stored user or its `_id`, an error and no
        request; otherwise the request carries the user's id in `x-user-id`,
        and a reply whose `success` is falsy becomes an error with its message. */
    method Load(user: Json, fetched: Fetched) returns (header: Option<Json>)
      modifies this
      ensures !loading
      ensures header.None? <==> !Truthy(user) || !Truthy(Member(user, "_id"))
      ensures header.None? ==> error == Str(NoUserMessage) && data == old(data)
      ensures header.Some? ==> header.value == Member(user, "_id")
      ensures header.Some? && fetched.Answered? && Truthy(Member(fetched.result, "success")) ==>
        data == Member(fetched.result, "data") && error == (if clears then Null else old(error))
      ensures header.Some? && fetched.Answered? && !Truthy(Member(fetched.result, "success")) ==>
        error == Str(Template(Or(Member(fetched.result, "message"), Str(FetchFailedMessage))))
        && data == (if clears then Null else old(data))
      ensures header.Some? && fetched.FetchFailed? ==>
        error == Str(fetched.message) && data == (if clears then Null else old(data))
    {
      loading := true;
      if !Truthy(user) || !Truthy(Member(user, "_id")) {
        error := Str(NoUserMessage);
        loading := false;
        return None;
      }
      header := Some(Member(user, "_id"));
      match fetched {
        case Answered(result) =>
          if Truthy(Member(result, "success")) {
            data := Member(result, "data");
            if clears {
              error := Null;
            }
          } else {
            error := Str(Template(Or(Member(result, "message"), Str(FetchFailedMessage))));
            if clears {
              data := Null;
            }
          }
        case FetchFailed(message) =>
          error := Str(message);
          if clears {
            data := Null;
          }
      }
      loading := false;
    }
  }
}
