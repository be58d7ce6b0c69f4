/** The public page of one branch (client/src/pages/website/BranchDetailPage.jsx):
    which students it lists, the payment details it shows, and the state the
    donate and sponsor buttons hand to the donation form. */
module BranchDetail {
  import opened Common
  import opened Js
  import opened Seqs
  import opened BranchScope
  import DonatePage

  /** `student.branch._id` throws when `student.branch` is null or undefined: the
      student whose branch was deleted (populate gives null), or a value that is
      not a student object at all. */
  predicate Unreadable(student: Json)
  {
    Nullish(Member(student, "branch"))
  }

  /** The filter as written, `student.branch._id === branchId`: it throws at the
      first unreadable student, and otherwise keeps those whose populated branch
      has the route id. */
  function FilterAsWritten(s: seq<Json>, branchId: string): (r: Eval<seq<Json>>)
    ensures r.TypeError? <==> exists k :: 0 <= k < |s| && Unreadable(s[k])
    ensures r.Value? ==> r.value == Filter(s, StudentTest(Str(branchId)))
  {
    if s == [] then Value([])
    else if Unreadable(s[0]) then TypeError
    else
      match FilterAsWritten(s[1..], branchId)
      case TypeError =>
        assert forall k :: 0 <= k < |s| - 1 ==> s[1..][k] == s[k + 1];
        TypeError
      case Value(rest) =>
        assert forall k :: 1 <= k < |s| ==> s[k] == s[1..][k - 1];
        Value((if StudentTest(Str(branchId))(s[0]) then [s[0]] else []) + rest)
  }

  /** `studentsForBranch` as written: undefined while the list is missing. The
      guarded filter, `student.branch?._id`, as the branch admin's student page
      writes it, is `BranchScope.StudentsOf`. */
  function StudentsForBranchAsWritten(students: Option<seq<Json>>, branchId: string): (r: Eval<Option<seq<Json>>>)
    ensures students.None? ==> r == Value(None)
    ensures students.Some? ==>
      (r.TypeError? <==> exists k :: 0 <= k < |students.value| && Unreadable(students.value[k]))
  {
    if students.None? then Value(None)
    else
      match FilterAsWritten(students.value, branchId)
      case TypeError => TypeError
      case Value(kept) => Value(Some(kept))
  }

  /** Where no student is unreadable, the page as written lists what the guarded
      filter lists: the students whose populated branch has the route id. */
  lemma AsWrittenAgreesWhenReadable(students: Option<seq<Json>>, branchId: string)
    requires students.Some? ==> forall k :: 0 <= k < |students.value| ==> !Unreadable(students.value[k])
    ensures StudentsForBranchAsWritten(students, branchId) == Value(StudentsOf(students, Str(branchId)))
  {
  }

  /** One student whose branch was deleted is enough to make the page throw,
      where the guarded filter leaves that student out. */
  lemma OrphanedStudentBreaksPage(branchId: string)
    ensures var orphan := Obj(map["name" := Str("Ali"), "branch" := Null]);
      StudentsForBranchAsWritten(Some([orphan]), branchId).TypeError?
      && StudentsOf(Some([orphan]), Str(branchId)) == Some([])
  {
    var orphan := Obj(map["name" := Str("Ali"), "branch" := Null]);
    assert Unreadable([orphan][0]);
    assert !StudentTest(Str(branchId))(orphan);
  }

  /** The "Total Students" figure, `studentsForBranch?.length || 0`. */
  function StudentCount(list: Option<seq<Json>>): (n: nat)
    ensures list.None? ==> n == 0
    ensures list.Some? ==> n == |list.value|
  {
    if list.Some? && |list.value| != 0 then |list.value| else 0
  }

  /** The bank fields read from `branch.paymentInfo || {}`. */
  datatype Payment = Payment(bankName: Json, accountTitle: Json, accountNumber: Json)

  function PaymentOf(branch: Json): (p: Payment)
    ensures !Truthy(Member(branch, "paymentInfo")) ==> p == Payment(Undefined, Undefined, Undefined)
    ensures Truthy(Member(branch, "paymentInfo")) ==>
      var info := Member(branch, "paymentInfo");
      p == Payment(Member(info, "bankName"), Member(info, "accountTitle"), Member(info, "accountNumber"))
  {
    var info := Or(Member(branch, "paymentInfo"), Obj(map[]));
    Payment(Member(info, "bankName"), Member(info, "accountTitle"), Member(info, "accountNumber"))
  }

  /** The navigation state of `handleDirectDonate`. */
  function DirectDonateState(branch: Json): (s: Json)
    ensures s.Obj? && "studentId" !in s.fields && "studentName" !in s.fields
    ensures Member(s, "branchId") == Member(branch, "_id") && Member(s, "branchName") == Member(branch, "name")
    ensures Member(s, "donationType") == Str("GENERAL")
    ensures forall k :: k in {"bankName", "accountTitle", "accountNumber"} ==>
      Member(s, k) == Member(Or(Member(branch, "paymentInfo"), Obj(map[])), k)
  {
    var p := PaymentOf(branch);
    Obj(map["branchId" := Member(branch, "_id"), "branchName" := Member(branch, "name"),
            "donationType" := Str("GENERAL"), "bankName" := p.bankName,
            "accountTitle" := p.accountTitle, "accountNumber" := p.accountNumber])
  }

  /** The navigation state of `handleSponsorStudent(studentId, studentName)`. */
  function SponsorState(branch: Json, studentId: Json, studentName: Json): (s: Json)
    ensures s.Obj? && Member(s, "studentId") == studentId && Member(s, "studentName") == studentName
    ensures Member(s, "branchId") == Member(branch, "_id") && Member(s, "branchName") == Member(branch, "name")
    ensures Member(s, "donationType") == Str("SPECIFIC_STUDENT")
    ensures forall k :: k in {"bankName", "accountTitle", "accountNumber"} ==>
      Member(s, k) == Member(Or(Member(branch, "paymentInfo"), Obj(map[])), k)
  {
    var p := PaymentOf(branch);
    Obj(map["branchId" := Member(branch, "_id"), "branchName" := Member(branch, "name"),
            "studentId" := studentId, "studentName" := studentName,
            "bankName" := p.bankName, "accountTitle" := p.accountTitle,
            "accountNumber" := p.accountNumber, "donationType" := Str("SPECIFIC_STUDENT")])
  }

  /** A direct donation reaches the form as a GENERAL donation to this branch
      with no student: the posted body has no `studentRecipient` and the form
      names the branch's general fund. */
  lemma DirectDonateIsGeneral(branch: Json, amount: int, fileName: string)
    ensures var t := DonatePage.TargetOf(DirectDonateState(branch));
      var body := DonatePage.Body(t, amount, fileName);
      t.branchId == Member(branch, "_id") && t.studentId == Undefined
      && "studentRecipient" !in body && body["category"] == Str("GENERAL")
      && body["branch"] == Member(branch, "_id")
      && DonatePage.TargetText(t) == DonatePage.GeneralPrefix + Template(Member(branch, "name"))
      && (DonatePage.Mount(t).FetchBranch? <==> Truthy(Member(branch, "_id")))
  {
  }

  /** Sponsoring a listed student reaches the form as a SPECIFIC_STUDENT donation:
      the posted body names that student as recipient and the form names the student. */
  lemma SponsorIsSpecific(branch: Json, studentId: Json, studentName: Json, amount: int, fileName: string)
    requires Truthy(studentId)
    ensures var t := DonatePage.TargetOf(SponsorState(branch, studentId, studentName));
      var body := DonatePage.Body(t, amount, fileName);
      body["studentRecipient"] == studentId && body["category"] == Str(DonatePage.SpecificStudent)
      && body["branch"] == Member(branch, "_id")
      && DonatePage.TargetText(t) == DonatePage.SponsorPrefix + Template(studentName)
  {
  }
}
