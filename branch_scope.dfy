/** How the branch admin's pages find their own branch: the session user's
    `branch` is either a populated branch object or a bare id, and
    `user?.branch?._id || user?.branch` reads the id from either. */
module BranchScope {
  import opened Common
  import opened Js
  import opened Seqs

  /** `user?.branch?._id || user?.branch`. */
  function BranchKey(user: Json): Json
  {
    Or(Member(Member(user, "branch"), "_id"), Member(user, "branch"))
  }

  /** A user whose `branch` is the given value. */
  function UserWith(branch: Json): Json
  {
    Obj(map["branch" := branch])
  }

  /** A populated reference: an object whose `_id` is the given id. */
  function Populated(id: string): Json
  {
    Obj(map["_id" := Str(id)])
  }

  /** Populated or bare, the same branch gives the same key; a missing user or branch gives undefined. */
  lemma KeyOfEitherForm(id: string)
    requires id != []
    ensures BranchKey(UserWith(Str(id))) == Str(id)
    ensures BranchKey(UserWith(Populated(id))) == Str(id)
    ensures BranchKey(Undefined) == Undefined && BranchKey(UserWith(Undefined)) == Undefined
  {
  }

  /** `need.branch?._id === branchId || need.branch === branchId`. */
  predicate NeedInScope(need: Json, key: Json)
  {
    StrictEq(Member(Member(need, "branch"), "_id"), key) || StrictEq(Member(need, "branch"), key)
  }

  /** `student.branch?._id === branchId`: only a populated branch can match. */
  predicate StudentInScope(student: Json, key: Json)
  {
    StrictEq(Member(Member(student, "branch"), "_id"), key)
  }

  /** The test `student.branch?._id === key`, as a function of the student. */
  function StudentTest(key: Json): Json -> bool
  {
    (s: Json) => StudentInScope(s, key)
  }

  /** `students?.filter((student) => student.branch?._id === key)`: undefined while
      the list is missing, otherwise the students in scope, in list order. */
  function StudentsOf(students: Option<seq<Json>>, key: Json): (r: Option<seq<Json>>)
    ensures students.None? <==> r.None?
    ensures students.Some? ==>
      (forall x :: x in r.value <==> x in students.value && StudentInScope(x, key))
      && IsSubsequence(r.value, students.value)
  {
    if students.None? then None
    else
      FilterIsSubsequence(students.value, StudentTest(key));
      Some(Filter(students.value, StudentTest(key)))
  }

  /** For a real branch id, a need is shown exactly when its branch is that id, bare or populated. */
  lemma NeedScopeExact(need: Json, id: string)
    requires id != []
    ensures NeedInScope(need, Str(id)) <==>
      Member(need, "branch") == Str(id)
      || (Member(need, "branch").Obj? && Member(Member(need, "branch"), "_id") == Str(id))
  {
  }

  /** For a real branch id, a student is shown exactly when its populated branch has that id;
      a student whose branch came back as a bare id is not shown. */
  lemma StudentScopeExact(student: Json, id: string)
    requires id != []
    ensures StudentInScope(student, Str(id)) <==>
      Member(student, "branch").Obj? && Member(Member(student, "branch"), "_id") == Str(id)
  {
  }

  /** Without a branch key (no session user, or a user with no branch) the need test
      still passes every need whose branch is a bare id, since `"id"._id` is undefined. */
  lemma UndefinedKeyMatchesBareIds(need: Json, id: string)
    requires Member(need, "branch") == Str(id)
    ensures NeedInScope(need, BranchKey(Undefined))
  {
  }
}
