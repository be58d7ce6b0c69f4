/** The student collection and its service (server/services/student.services.js),
    over the schema of server/models/Student.js. The collection is kept in
    creation order, which is the order `find()` returns; every failure inside
    the service is caught and answered SERVER_ERROR with the error's message. */
module Students {
  import opened Common
  import opened Text
  import opened Schemas
  import opened Seqs

  const NotFoundMessage := "Student not found"
  const InvalidMessage := "Student validation failed"

  /** The fields an update body may set; an absent field is left as it is. */
  datatype StudentPatch = StudentPatch(
    name: Option<string>, branch: Option<Id>, dateOfBirth: Option<int>,
    guardianName: Option<string>, isActive: Option<bool>)

  const NoChange := StudentPatch(None, None, None, None, None)

  /** The record after `findByIdAndUpdate(id, patch, { new: true })`: the `trim`
      setter runs on the update, the `required` validators do not. */
  function Merge(s: Student, p: StudentPatch): (r: Student)
    ensures r.id == s.id && r.createdAt == s.createdAt
    ensures r.name == (if p.name.Some? then Trim(p.name.value) else s.name)
    ensures p.branch.Some? ==> r.branch == p.branch.value
    ensures p.branch.None? ==> r.branch == s.branch
    ensures r.dateOfBirth == (if p.dateOfBirth.Some? then p.dateOfBirth else s.dateOfBirth)
    ensures r.guardianName == (if p.guardianName.Some? then p.guardianName else s.guardianName)
    ensures r.isActive == (if p.isActive.Some? then p.isActive.value else s.isActive)
  {
    s.(name := if p.name.Some? then Trim(p.name.value) else s.name,
       branch := if p.branch.Some? then p.branch.value else s.branch,
       dateOfBirth := if p.dateOfBirth.Some? then p.dateOfBirth else s.dateOfBirth,
       guardianName := if p.guardianName.Some? then p.guardianName else s.guardianName,
       isActive := if p.isActive.Some? then p.isActive.value else s.isActive)
  }

  /** An empty update leaves a stored record as it was, and repeating an update changes nothing more. */
  lemma MergeLaws(s: Student, p: StudentPatch)
    requires IsTrimmed(s.name)
    ensures Merge(s, NoChange) == s
    ensures Merge(Merge(s, p), p) == Merge(s, p)
  {
  }

  /** No validator runs on an update, so a blank name is stored as "". */
  lemma BlankNameStoredOnUpdate(s: Student)
    ensures Merge(s, NoChange.(name := Some("  "))).name == []
  {
    assert Trim("  ") == [] by {
      assert TrimStart("  ") == [];
    }
  }

  function KeyOf(s: Student): nat { s.id }

  /** Creation order: distinct ids, strictly increasing `createdAt`. */
  predicate Before(a: Student, b: Student)
  {
    a.id != b.id && a.createdAt < b.createdAt
  }

  ghost predicate Ordered(s: seq<Student>)
  {
    Pairwise(s, Before)
  }

  lemma OrderedFilter(s: seq<Student>, p: Student -> bool)
    ensures Ordered(s) ==> Ordered(Filter(s, p))
  {
    if Ordered(s) {
      FilterPairwise(s, p, Before);
    }
  }

  /** `Student.create(studentData)`: the new record, or the validation error the service catches. */
  function CreateResult(id: Id, now: nat, input: StudentInput): (r: ServiceResult<Student>)
    ensures r.status == Success <==> NewStudent(id, now, input).Valid?
    ensures r.status == Success ==> r.data == Some(NewStudent(id, now, input).doc)
    ensures r.status != Success ==> r == Fail(ServerError, InvalidMessage)
  {
    var v := NewStudent(id, now, input);
    if v.Valid? then Ok(v.doc) else Fail(ServerError, InvalidMessage)
  }

  /** `getAllStudents`: every student, in the order they were stored. */
  function GetAll(s: seq<Student>): (r: ServiceResult<seq<Student>>)
    ensures r.status == Success && r.data.Some?
    ensures |r.data.value| == |s| && forall k :: 0 <= k < |s| ==> r.data.value[k] == s[k]
  {
    Ok(s)
  }

  /** `getStudentById`. */
  function GetById(s: seq<Student>, id: Id): (r: ServiceResult<Student>)
    ensures r.status == Success <==> exists k :: 0 <= k < |s| && s[k].id == id
    ensures r.status == Success ==> r.data.Some? && r.data.value in s && r.data.value.id == id
    ensures r.status != Success ==> r == Fail(NotFound, NotFoundMessage)
  {
    match IndexOf(s, KeyOf, id)
    case None => Fail(NotFound, NotFoundMessage)
    case Some(i) => Ok(s[i])
  }

  /** The collection without the record whose id is `id`. */
  function Without(s: seq<Student>, id: Id): (r: seq<Student>)
    ensures forall x :: x in r <==> x in s && x.id != id
    ensures Ordered(s) ==> Ordered(r)
  {
    OrderedFilter(s, (x: Student) => x.id != id);
    Filter(s, (x: Student) => x.id != id)
  }

  /** A record appended with a fresh id and a later stamp is found under its id. */
  lemma {:induction false} CreateThenGet(s: seq<Student>, d: Student)
    requires forall k :: 0 <= k < |s| ==> s[k].id != d.id
    ensures GetById(s + [d], d.id) == Ok(d)
  {
    var t := s + [d];
    assert KeyOf(t[|s|]) == d.id;
    var i := IndexOf(t, KeyOf, d.id).value;
    assert t[i].id == d.id;
    assert i == |s|;
  }

  /** In an ordered collection each id names one record, so a lookup finds exactly the record stored under it. */
  lemma GetFindsStored(s: seq<Student>, k: nat)
    requires Ordered(s) && k < |s|
    ensures GetById(s, s[k].id) == Ok(s[k])
  {
    var i := IndexOf(s, KeyOf, s[k].id).value;
    assert i == k;
  }

  class StudentStore {
    var students: seq<Student>
    var nextId: nat
    var clock: nat

    ghost predicate Valid()
      reads this
    {
      Ordered(students)
      && forall k :: 0 <= k < |students| ==> students[k].id < nextId && students[k].createdAt < clock
    }

    constructor()
      ensures Valid() && students == []
    {
      students := [];
      nextId := 0;
      clock := 0;
    }

    /** `createStudent`. */
    method Create(input: StudentInput) returns (r: ServiceResult<Student>)
      requires Valid()
      modifies this
      ensures Valid()
      ensures r == CreateResult(old(nextId), old(clock), input)
      ensures r.status == Success ==> students == old(students) + [r.data.value]
      ensures r.status != Success ==> students == old(students)
    {
      var v := NewStudent(nextId, clock, input);
      if v.Invalid? {
        r := Fail(ServerError, InvalidMessage);
        return;
      }
      students := students + [v.doc];
      nextId := nextId + 1;
      clock := clock + 1;
      r := Ok(v.doc);
    }

    /** `updateStudentById`: merge the given fields into the record, or NOT_FOUND. */
    method Update(id: Id, patch: StudentPatch) returns (r: ServiceResult<Student>)
      requires Valid()
      modifies this
      ensures Valid() && nextId == old(nextId) && clock == old(clock)
      ensures IndexOf(old(students), KeyOf, id).None? ==>
        r == Fail(NotFound, NotFoundMessage) && students == old(students)
      ensures IndexOf(old(students), KeyOf, id).Some? ==>
        var k := IndexOf(old(students), KeyOf, id).value;
        students == old(students)[k := Merge(old(students)[k], patch)] && r == Ok(students[k])
    {
      var found := IndexOf(students, KeyOf, id);
      if found.None? {
        r := Fail(NotFound, NotFoundMessage);
        return;
      }
      var k := found.value;
      var updated := Merge(students[k], patch);
      students := students[k := updated];
      r := Ok(updated);
    }

    /** `deleteStudentById`: remove the record and hand it back, or NOT_FOUND. */
    method Delete(id: Id) returns (r: ServiceResult<Student>)
      requires Valid()
      modifies this
      ensures Valid() && nextId == old(nextId) && clock == old(clock)
      ensures students == Without(old(students), id)
      ensures r == GetById(old(students), id)
    {
      r := GetById(students, id);
      students := Without(students, id);
    }
  }
}
