/** The dashboard service (server/services/dashboard.services.js): counts, the
    `$sum` of donation amounts and the five most recent donations and students,
    over the whole system for the head office and over one branch for a branch
    admin, dispatched on the caller's role. */
module Dashboard {
  import opened Common
  import opened Schemas
  import opened Seqs

  /** `.limit(5)` of the recent lists. */
  const RecentLimit: nat := 5

  /** The collections the service reads, students and donations in creation order. */
  datatype Database = Database(
    students: seq<Student>, donations: seq<Donation>,
    branches: map<Id, Branch>, users: map<Id, User>)

  datatype Overview =
    | AdminData(totalStudents: nat, totalDonations: int, totalBranches: nat, totalUsers: nat,
                recentDonations: seq<Donation>, recentStudents: seq<Student>)
    | BranchData(totalStudents: nat, totalDonations: int, branchDetails: Option<Branch>,
                 recentDonations: seq<Donation>, recentStudents: seq<Student>)

  function Amount(d: Donation): int { d.amount }
  function DonationStamp(d: Donation): int { d.createdAt }
  function StudentStamp(s: Student): int { s.createdAt }

  /** `Donation.aggregate([... { $group: { total: { $sum: "$amount" } } }])` followed by
      `totalDonations[0]?.total || 0`: there is no group at all on an empty collection,
      and the fallback then gives what the sum would have. Amounts count whatever the
      donation's status. */
  function TotalAmount(donations: seq<Donation>): (total: int)
    ensures total == Sum(donations, Amount)
  {
    if donations == [] then 0 else Sum(donations, Amount)
  }

  function OfBranchDonation(branch: Id): Donation -> bool
  {
    (d: Donation) => d.branch == branch
  }

  function OfBranchStudent(branch: Id): Student -> bool
  {
    (s: Student) => s.branch == branch
  }

  /** `getAdminDashboardData`. */
  function AdminDashboardData(db: Database): (r: Overview)
    ensures r.AdminData?
    ensures r.totalStudents == |db.students| && r.totalBranches == |db.branches| && r.totalUsers == |db.users|
    ensures r.totalDonations == Sum(db.donations, Amount)
    ensures |r.recentDonations| == Min(|db.donations|, RecentLimit)
    ensures |r.recentStudents| == Min(|db.students|, RecentLimit)
  {
    AdminData(|db.students|, TotalAmount(db.donations), |db.branches|, |db.users|,
              Recent(db.donations, RecentLimit), Recent(db.students, RecentLimit))
  }

  /** `getBranchAdminDashboardData(branchId)`: the same figures over that branch's records only. */
  function BranchDashboardData(db: Database, branch: Id): (r: Overview)
    ensures r.BranchData?
    ensures r.totalStudents == |Filter(db.students, OfBranchStudent(branch))|
    ensures r.totalDonations == Sum(Filter(db.donations, OfBranchDonation(branch)), Amount)
    ensures r.branchDetails == (if branch in db.branches then Some(db.branches[branch]) else None)
    ensures forall k :: 0 <= k < |r.recentDonations| ==> r.recentDonations[k].branch == branch
    ensures forall k :: 0 <= k < |r.recentStudents| ==> r.recentStudents[k].branch == branch
    ensures |r.recentDonations| == Min(|Filter(db.donations, OfBranchDonation(branch))|, RecentLimit)
    ensures |r.recentStudents| == Min(|Filter(db.students, OfBranchStudent(branch))|, RecentLimit)
  {
    var donations := Filter(db.donations, OfBranchDonation(branch));
    var students := Filter(db.students, OfBranchStudent(branch));
    var recentDonations := Recent(donations, RecentLimit);
    var recentStudents := Recent(students, RecentLimit);
    assert forall k :: 0 <= k < |recentDonations| ==> recentDonations[k] == donations[|donations| - 1 - k];
    assert forall k :: 0 <= k < |recentStudents| ==> recentStudents[k] == students[|students| - 1 - k];
    BranchData(|students|, TotalAmount(donations),
               if branch in db.branches then Some(db.branches[branch]) else None,
               recentDonations, recentStudents)
  }

  function Min(a: nat, b: nat): nat { if a < b then a else b }

  /** `getDashboardData(user)`. `failure` is the message of a query that throws, if one does. */
  function GetDashboardData(user: User, db: Database, failure: Option<string>): (r: ServiceResult<Overview>)
    ensures user.role == HeadOfficeAdmin && failure.None? ==> r == Ok(AdminDashboardData(db))
    ensures user.role == BranchAdmin && user.branch.Some? && failure.None? ==>
      r == Ok(BranchDashboardData(db, user.branch.value))
    ensures user.role == BranchAdmin && user.branch.None? ==>
      r == Fail(Forbidden, "Branch admin is not associated with any branch.")
    ensures user.role == Donor ==> r == Fail(Forbidden, "You are not authorized to view this dashboard.")
    ensures failure.Some? && (user.role == HeadOfficeAdmin || (user.role == BranchAdmin && user.branch.Some?)) ==>
      r == Fail(ServerError, failure.value)
  {
    match user.role
    case HeadOfficeAdmin =>
      if failure.Some? then Fail(ServerError, failure.value) else Ok(AdminDashboardData(db))
    case BranchAdmin =>
      if user.branch.None? then Fail(Forbidden, "Branch admin is not associated with any branch.")
      else if failure.Some? then Fail(ServerError, failure.value)
      else Ok(BranchDashboardData(db, user.branch.value))
    case Donor => Fail(Forbidden, "You are not authorized to view this dashboard.")
  }

  /** The recent lists are the newest records: newest first, and every record left
      out is older than every record shown. */
  lemma RecentAreNewest(db: Database)
    requires StrictlyIncreasing(db.donations, DonationStamp) && StrictlyIncreasing(db.students, StudentStamp)
    ensures var r := AdminDashboardData(db);
      StrictlyDecreasing(r.recentDonations, DonationStamp) && StrictlyDecreasing(r.recentStudents, StudentStamp)
      && (forall x :: x in r.recentDonations ==> x in db.donations)
      && (forall x :: x in r.recentStudents ==> x in db.students)
      && (forall i, j :: 0 <= i < |r.recentDonations| && 0 <= j < |db.donations| - |r.recentDonations| ==>
            r.recentDonations[i].createdAt > db.donations[j].createdAt)
      && (forall i, j :: 0 <= i < |r.recentStudents| && 0 <= j < |db.students| - |r.recentStudents| ==>
            r.recentStudents[i].createdAt > db.students[j].createdAt)
  {
    RecentIsNewest(db.donations, RecentLimit, DonationStamp);
    RecentIsNewest(db.students, RecentLimit, StudentStamp);
  }

  /** The branch view's recent lists are that branch's newest records, newest
      first: as many as the branch has up to the limit, and every record of the
      branch left out is older than every record shown. */
  lemma BranchRecentAreNewest(db: Database, branch: Id)
    requires StrictlyIncreasing(db.donations, DonationStamp) && StrictlyIncreasing(db.students, StudentStamp)
    ensures var r := BranchDashboardData(db, branch);
      var donations := Filter(db.donations, OfBranchDonation(branch));
      var students := Filter(db.students, OfBranchStudent(branch));
      StrictlyDecreasing(r.recentDonations, DonationStamp) && StrictlyDecreasing(r.recentStudents, StudentStamp)
      && |r.recentDonations| == Min(|donations|, RecentLimit) && |r.recentStudents| == Min(|students|, RecentLimit)
      && (forall x :: x in r.recentDonations ==> x in db.donations)
      && (forall x :: x in r.recentStudents ==> x in db.students)
      && (forall i, j :: 0 <= i < |r.recentDonations| && 0 <= j < |donations| - |r.recentDonations| ==>
            r.recentDonations[i].createdAt > donations[j].createdAt)
      && (forall i, j :: 0 <= i < |r.recentStudents| && 0 <= j < |students| - |r.recentStudents| ==>
            r.recentStudents[i].createdAt > students[j].createdAt)
  {
    FilterPairwise(db.donations, OfBranchDonation(branch), (a: Donation, b: Donation) => a.createdAt < b.createdAt);
    FilterPairwise(db.students, OfBranchStudent(branch), (a: Student, b: Student) => a.createdAt < b.createdAt);
    RecentIsNewest(Filter(db.donations, OfBranchDonation(branch)), RecentLimit, DonationStamp);
    RecentIsNewest(Filter(db.students, OfBranchStudent(branch)), RecentLimit, StudentStamp);
  }

  /** The branch totals and the rest of the system add up to the head-office totals. */
  lemma BranchTotalsPartition(db: Database, branch: Id)
    ensures var all := AdminDashboardData(db);
      var mine := BranchDashboardData(db, branch);
      all.totalDonations == mine.totalDonations + Sum(Filter(db.donations, Not(OfBranchDonation(branch))), Amount)
      && all.totalStudents == mine.totalStudents + |Filter(db.students, Not(OfBranchStudent(branch)))|
  {
    SumSplits(db.donations, OfBranchDonation(branch), Amount);
    SumSplits(db.students, OfBranchStudent(branch), (s: Student) => 0);
  }
}
