/** The branch admin's student page (client/src/pages/branchAdmin/StudentMangament.jsx):
    the students it shows, the body its form submits, and the data an edit
    starts from. */
module StudentManagement {
  import opened Common
  import opened Js
  import opened Text
  import opened BranchScope
  import opened FormModal

  /** The students the page lists for its session user: `studentsForBranch`. */
  function Shown(students: Option<seq<Json>>, user: Json): Option<seq<Json>>
  {
    StudentsOf(students, BranchKey(user))
  }

  /** Whether the session user's branch was stored populated or as a bare id,
      the page lists the same students. */
  lemma SameListForEitherForm(students: Option<seq<Json>>, id: string)
    requires id != []
    ensures Shown(students, UserWith(Populated(id))) == Shown(students, UserWith(Str(id)))
    ensures Shown(students, UserWith(Str(id))) == StudentsOf(students, Str(id))
  {
    KeyOfEitherForm(id);
  }

  /** `cleanGenderValue`: given a change event (an object with a truthy `target`)
      the event's `target.value`, otherwise the value as it is. */
  function CleanGender(g: Json): (r: Json)
    ensures !g.Obj? ==> r == g
    ensures g.Obj? && Truthy(Member(g, "target")) ==> r == Member(Member(g, "target"), "value")
    ensures g.Obj? && !Truthy(Member(g, "target")) ==> r == g
  {
    if g.Obj? && Truthy(Member(g, "target")) then Member(Member(g, "target"), "value") else g
  }

  /** Cleaning twice is cleaning once when the event carries a plain value. */
  lemma CleanGenderOfEvent(value: string)
    ensures var event := Obj(map["target" := Obj(map["value" := Str(value)])]);
      CleanGender(event) == Str(value) && CleanGender(CleanGender(event)) == Str(value)
  {
  }

  /** The body `handleFormSubmit` sends: the form's fields, the cleaned gender,
      and `user.branch` as the student's branch. */
  function SubmitBody(form: FormData, user: Json): (body: Json)
    ensures body.Obj?
    ensures body.fields.Keys == {"name", "branch", "dateOfBirth", "guardianName", "gender", "contactNumber", "address"}
    ensures Member(body, "branch") == Member(user, "branch")
    ensures Member(body, "gender") == CleanGender(Lookup(form, "gender"))
    ensures forall k :: k in {"name", "dateOfBirth", "guardianName", "contactNumber", "address"} ==>
      Member(body, k) == Lookup(form, k)
  {
    Obj(map["name" := Lookup(form, "name"), "branch" := Member(user, "branch"),
            "dateOfBirth" := Lookup(form, "dateOfBirth"), "guardianName" := Lookup(form, "guardianName"),
            "gender" := CleanGender(Lookup(form, "gender")), "contactNumber" := Lookup(form, "contactNumber"),
            "address" := Lookup(form, "address")])
  }

  const CreatedMessage := "Student created successfully."
  const UpdatedMessage := "Student updated successfully."
  const ErrorMessage := "An error occurred."

  /** The page's form and toast state. */
  class StudentsPage {
    var formMode: FormMode
    var selected: Json
    var formOpen: bool
    var isSubmitting: bool
    var toast: Option<Toast>

    constructor()
      ensures formMode == Add && selected == Null && !formOpen && !isSubmitting && toast.None?
    {
      formMode := Add;
      selected := Null;
      formOpen := false;
      isSubmitting := false;
      toast := None;
    }

    /** `handleFormSubmit`: an add posts the body, an edit updates the selected
        student with it; a fulfilled request closes the form. There is no
        `catch`: a dispatch that throws leaves the page submitting. */
    method Submit(form: FormData, user: Json, reply: Reply) returns (req: Request)
      modifies this
      ensures formMode == old(formMode) && selected == old(selected)
      ensures formMode == Add ==> req == Create("students", SubmitBody(form, user))
      ensures formMode == Edit ==> req == Update("students", Member(selected, "_id"), SubmitBody(form, user))
      ensures reply.Fulfilled? ==>
        toast == Some(Toast(Str(if formMode == Add then CreatedMessage else UpdatedMessage), "success"))
        && !formOpen && !isSubmitting
      ensures reply.Rejected? ==>
        toast == Some(Toast(Or(reply.payload, Str(ErrorMessage)), "error")) && formOpen == old(formOpen) && !isSubmitting
      ensures reply.Thrown? ==> toast == old(toast) && formOpen == old(formOpen) && isSubmitting
    {
      isSubmitting := true;
      var body := SubmitBody(form, user);
      if formMode == Add {
        req := Create("students", body);
      } else {
        req := Update("students", Member(selected, "_id"), body);
      }
      match reply {
        case Fulfilled =>
          toast := Some(Toast(Str(if formMode == Add then CreatedMessage else UpdatedMessage), "success"));
          formOpen := false;
          isSubmitting := false;
        case Rejected(payload) =>
          toast := Some(Toast(Or(payload, Str(ErrorMessage)), "error"));
          isSubmitting := false;
        case Thrown =>
      }
    }
  }

  /** `getFormFields`: the name and the gender are the required fields. */
  const FormFields: seq<Field> := [
    Field("name", "Student Name", true, Undefined),
    Field("dateOfBirth", "Date of Birth", false, Undefined),
    Field("guardianName", "Guardian Name", false, Undefined),
    Field("gender", "Gender", true, Undefined),
    Field("contactNumber", "Contact Number", false, Undefined),
    Field("address", "Address", false, Undefined)]

  /** Of the form's six fields, exactly the name and the gender are required. */
  lemma RequiredFields()
    ensures |FormFields| == 6
    ensures forall i :: 0 <= i < |FormFields| ==> (FormFields[i].required <==> FormFields[i].name in {"name", "gender"})
  {
  }

  /** The date input's value: `dateOfBirth.split("T")[0]` for a stored date, ""
      when there is none; a truthy value that is not a string has no `split`. */
  function DateInput(dob: Json): (r: Eval<Json>)
    ensures !Truthy(dob) ==> r == Value(Str(""))
    ensures dob.Str? && dob.s != [] ==> r == Value(Str(Split(dob.s, 'T')[0]))
    ensures Truthy(dob) && !dob.Str? ==> r == TypeError
  {
    if !Truthy(dob) then Value(Str(""))
    else if dob.Str? then Value(Str(Split(dob.s, 'T')[0]))
    else TypeError
  }

  /** An ISO timestamp shows as its date part, and a bare date as itself. */
  lemma DateInputOfIso(date: string, time: string)
    requires 'T' !in date
    ensures date + "T" + time != [] ==> DateInput(Str(date + "T" + time)) == Value(Str(date))
    ensures date != [] ==> DateInput(Str(date)) == Value(Str(date))
  {
    SplitAtFirst(date, 'T', time);
    SplitWithoutSeparator(date, 'T');
  }

  /** `getInitialData`: an edit starts from the selected student, every missing
      field as "" and the date cut to its date part; an add starts empty. */
  function InitialData(mode: FormMode, selected: Json): (r: Eval<FormData>)
    ensures mode == Add || !Truthy(selected) ==> r == Value(map[])
    ensures mode == Edit && Truthy(selected) ==>
      (r.TypeError? <==> DateInput(Member(selected, "dateOfBirth")).TypeError?)
      && (r.Value? ==>
        r.value.Keys == {"name", "dateOfBirth", "guardianName", "gender", "contactNumber", "address"}
        && r.value["dateOfBirth"] == DateInput(Member(selected, "dateOfBirth")).value
        && forall k :: k in r.value && k != "dateOfBirth" ==> r.value[k] == Or(Member(selected, k), Str("")))
  {
    if mode == Edit && Truthy(selected) then
      match DateInput(Member(selected, "dateOfBirth"))
      case TypeError => TypeError
      case Value(date) =>
        Value(map["name" := Or(Member(selected, "name"), Str("")), "dateOfBirth" := date,
                  "guardianName" := Or(Member(selected, "guardianName"), Str("")),
                  "gender" := Or(Member(selected, "gender"), Str("")),
                  "contactNumber" := Or(Member(selected, "contactNumber"), Str("")),
                  "address" := Or(Member(selected, "address"), Str(""))])
    else Value(map[])
  }

  /** No edit form starts with an undefined field: each holds a truthy stored
      value or "". */
  lemma EditStartsDefined(selected: Json, k: string)
    requires Truthy(selected) && InitialData(Edit, selected).Value?
    requires k in InitialData(Edit, selected).value && k != "dateOfBirth"
    ensures var v := InitialData(Edit, selected).value[k]; Truthy(v) || v == Str("")
  {
  }
}
