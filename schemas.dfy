/** The Mongoose schemas of the server (the models under server/models and server/src/models):
    what a document holds once created, which setters (`trim`, `lowercase`) and
    defaults are applied, and which validators (`required`, `enum`, `minlength`,
    `maxlength`) decide whether a create is accepted. A create that fails
    validation reports the set of paths that failed, as Mongoose's ValidationError does. */
module Schemas {
  import opened Common
  import opened Text

  datatype Validated<+T> = Valid(doc: T) | Invalid(paths: set<string>)

  /** Mongoose's `required` check on a string after casting: present and not empty. */
  predicate PresentString(v: Option<string>)
  {
    v.Some? && v.value != []
  }

  /** The value after the `trim` setter (absent stays absent). */
  function Trimmed(v: Option<string>): Option<string>
  {
    if v.Some? then Some(Trim(v.value)) else None
  }

  // ---------------------------------------------------------------- User

  /** The `role` enum of server/models/User.js. */
  function ParseRole(s: string): (r: Option<Role>)
    ensures r == Some(HeadOfficeAdmin) <==> s == "HEAD_OFFICE_ADMIN"
    ensures r == Some(BranchAdmin) <==> s == "BRANCH_ADMIN"
    ensures r == Some(Donor) <==> s == "DONOR"
  {
    if s == "HEAD_OFFICE_ADMIN" then Some(HeadOfficeAdmin)
    else if s == "BRANCH_ADMIN" then Some(BranchAdmin)
    else if s == "DONOR" then Some(Donor)
    else None
  }

  /** The fields a caller may supply for a user (absent = undefined). */
  datatype UserInput = UserInput(
    name: Option<string>, email: Option<string>, password: Option<string>,
    role: Option<string>, isActive: Option<bool>, branch: Option<Id>,
    address: Option<string>, phoneNumber: Option<string>)

  datatype User = User(
    id: Id, name: string, email: string, password: string, role: Role,
    isActive: bool, branch: Option<Id>, address: Option<string>, phoneNumber: Option<string>)

  /** The `lowercase` and `trim` setters of the `email` path. */
  function NormalizeEmail(s: string): string
  {
    Trim(ToLower(s))
  }

  const MinPasswordLength := 6

  /** What every stored user satisfies. */
  predicate WellFormedUser(u: User)
  {
    u.name != [] && IsTrimmed(u.name)
    && u.email != [] && IsTrimmed(u.email) && NoUpper(u.email)
    && |u.password| >= MinPasswordLength
  }

  function UserErrors(input: UserInput): set<string>
  {
    (if PresentString(Trimmed(input.name)) then {} else {"name"})
    + (if input.email.Some? && NormalizeEmail(input.email.value) != [] then {} else {"email"})
    + (if input.password.Some? && |input.password.value| >= MinPasswordLength then {} else {"password"})
    + (if input.role.Some? && ParseRole(input.role.value).Some? then {} else {"role"})
  }

  /** The stored form of an email is trimmed and has no upper-case letter. */
  lemma NormalizedEmailShape(s: string)
    ensures IsTrimmed(NormalizeEmail(s)) && NoUpper(NormalizeEmail(s))
  {
    TrimShape(ToLower(s));
    ToLowerIdempotent(s);
    var t := NormalizeEmail(s);
    var i, j :| 0 <= i <= j <= |ToLower(s)| && t == ToLower(s)[i..j];
    assert forall k :: 0 <= k < |t| ==> t[k] == ToLower(s)[i + k];
  }

  /** `new User(input)` followed by validation. */
  function NewUser(id: Id, input: UserInput): (r: Validated<User>)
    ensures r.Valid? <==>
      PresentString(Trimmed(input.name))
      && input.email.Some? && NormalizeEmail(input.email.value) != []
      && input.password.Some? && |input.password.value| >= 6
      && input.role.Some? && input.role.value in {"HEAD_OFFICE_ADMIN", "BRANCH_ADMIN", "DONOR"}
    ensures r.Valid? ==> WellFormedUser(r.doc) && r.doc.id == id
    ensures r.Valid? ==> r.doc.name == Trim(input.name.value)
    ensures r.Valid? ==> r.doc.email == ToLower(Trim(input.email.value))
    ensures r.Valid? ==> r.doc.password == input.password.value
    ensures r.Valid? ==> r.doc.role == ParseRole(input.role.value).value
    ensures r.Valid? ==> r.doc.address == input.address && r.doc.phoneNumber == input.phoneNumber
    ensures r.Valid? ==> r.doc.isActive == (input.isActive != Some(false))
    ensures r.Valid? ==> r.doc.branch == input.branch
    ensures r.Invalid? ==> r.paths != {} && r.paths <= {"name", "email", "password", "role"}
  {
    var errors := UserErrors(input);
    if errors != {} then Invalid(errors)
    else
      TrimShape(input.name.value);
      NormalizedEmailShape(input.email.value);
      TrimLowerCommute(input.email.value);
      var email := NormalizeEmail(input.email.value);
      Valid(User(id, Trim(input.name.value), email, input.password.value,
                 ParseRole(input.role.value).value,
                 if input.isActive.Some? then input.isActive.value else true,
                 input.branch, input.address, input.phoneNumber))
  }

  // ---------------------------------------------------------------- Branch

  datatype BranchInput = BranchInput(
    name: Option<string>, phoneNumber: Option<string>, location: Option<string>, admin: Option<Id>)

  datatype Branch = Branch(id: Id, name: string, phoneNumber: string, location: string, admin: Option<Id>)

  predicate WellFormedBranch(b: Branch)
  {
    b.name != [] && IsTrimmed(b.name)
    && b.phoneNumber != [] && IsTrimmed(b.phoneNumber)
    && b.location != [] && IsTrimmed(b.location)
  }

  function BranchErrors(input: BranchInput): set<string>
  {
    (if PresentString(Trimmed(input.name)) then {} else {"name"})
    + (if PresentString(Trimmed(input.phoneNumber)) then {} else {"phoneNumber"})
    + (if PresentString(Trimmed(input.location)) then {} else {"location"})
  }

  function NewBranch(id: Id, input: BranchInput): (r: Validated<Branch>)
    ensures r.Valid? <==>
      PresentString(Trimmed(input.name)) && PresentString(Trimmed(input.phoneNumber))
      && PresentString(Trimmed(input.location))
    ensures r.Valid? ==> WellFormedBranch(r.doc) && r.doc.id == id && r.doc.admin == input.admin
    ensures r.Valid? ==>
      r.doc.name == Trim(input.name.value) && r.doc.phoneNumber == Trim(input.phoneNumber.value)
      && r.doc.location == Trim(input.location.value)
    ensures r.Invalid? ==> r.paths != {} && r.paths <= {"name", "phoneNumber", "location"}
  {
    var errors := BranchErrors(input);
    if errors != {} then Invalid(errors)
    else
      TrimShape(input.name.value);
      TrimShape(input.phoneNumber.value);
      TrimShape(input.location.value);
      Valid(Branch(id, Trim(input.name.value), Trim(input.phoneNumber.value),
                   Trim(input.location.value), input.admin))
  }

  // ---------------------------------------------------------------- Donation

  /** The `status` enum of server/src/models/Donation.js. The stored value is the
      string itself: updates do not run the enum validator. */
  const DonationStatuses: set<string> := {"PENDING", "APPROVED", "REJECTED"}

  /** The data handed to `Donation.create`. `transactionId` is not a path of the
      schema, so strict mode drops it. */
  datatype DonationInput = DonationInput(
    donor: Option<Id>, branch: Option<Id>, amount: Option<int>, receiptImage: Option<string>,
    status: Option<string>, notes: Option<string>, transactionId: Option<string>)

  datatype Donation = Donation(
    id: Id, donor: Id, branch: Id, amount: int, receiptImage: string,
    status: string, notes: string, createdAt: nat)

  function DonationErrors(input: DonationInput): set<string>
  {
    (if input.donor.Some? then {} else {"donor"})
    + (if input.branch.Some? then {} else {"branch"})
    + (if input.amount.Some? then {} else {"amount"})
    + (if PresentString(input.receiptImage) then {} else {"receiptImage"})
    + (if input.status.None? || input.status.value in DonationStatuses then {} else {"status"})
  }

  /** `Donation.create(input)` at creation time `now`. Any amount is accepted,
      zero and negative ones included: the schema declares no bound. */
  function NewDonation(id: Id, now: nat, input: DonationInput): (r: Validated<Donation>)
    ensures r.Valid? <==>
      input.donor.Some? && input.branch.Some? && input.amount.Some?
      && PresentString(input.receiptImage)
      && (input.status.None? || input.status.value in {"PENDING", "APPROVED", "REJECTED"})
    ensures r.Valid? ==>
      r.doc.id == id && r.doc.createdAt == now
      && r.doc.donor == input.donor.value && r.doc.branch == input.branch.value
      && r.doc.amount == input.amount.value && r.doc.receiptImage == input.receiptImage.value
    ensures r.Valid? ==> r.doc.status in DonationStatuses
    ensures r.Valid? ==> r.doc.status == (if input.status.Some? then input.status.value else "PENDING")
    ensures r.Valid? ==> r.doc.notes == (if input.notes.Some? then input.notes.value else "")
    ensures r.Invalid? ==> r.paths != {} && r.paths <= {"donor", "branch", "amount", "receiptImage", "status"}
  {
    var errors := DonationErrors(input);
    if errors != {} then Invalid(errors)
    else
      Valid(Donation(id, input.donor.value, input.branch.value, input.amount.value,
                     input.receiptImage.value,
                     if input.status.Some? then input.status.value else "PENDING",
                     if input.notes.Some? then input.notes.value else "",
                     now))
  }

  // ---------------------------------------------------------------- Need

  /** The `status` enum of server/src/models/Need.js. */
  const NeedStatuses: set<string> := {"PENDING", "APPROVED", "REJECTED", "FULFILLED"}

  datatype NeedInput = NeedInput(
    title: Option<string>, description: Option<string>, quantityOrAmount: Option<string>,
    branch: Option<Id>, status: Option<string>, fulfilledDate: Option<int>)

  datatype Need = Need(
    id: Id, title: string, description: string, quantityOrAmount: string, branch: Id,
    status: string, fulfilledDate: Option<int>, createdAt: nat)

  const MaxTitleLength := 100
  const MaxDescriptionLength := 500
  const MaxQuantityLength := 50

  predicate WellFormedNeed(n: Need)
  {
    n.title != [] && IsTrimmed(n.title) && |n.title| <= MaxTitleLength
    && n.description != [] && |n.description| <= MaxDescriptionLength
    && n.quantityOrAmount != [] && IsTrimmed(n.quantityOrAmount) && |n.quantityOrAmount| <= MaxQuantityLength
    && n.status in NeedStatuses
  }

  function NeedErrors(input: NeedInput): set<string>
  {
    var title := Trimmed(input.title);
    var quantity := Trimmed(input.quantityOrAmount);
    (if PresentString(title) && |title.value| <= MaxTitleLength then {} else {"title"})
    + (if PresentString(input.description) && |input.description.value| <= MaxDescriptionLength then {} else {"description"})
    + (if PresentString(quantity) && |quantity.value| <= MaxQuantityLength then {} else {"quantityOrAmount"})
    + (if input.branch.Some? then {} else {"branch"})
    + (if input.status.None? || input.status.value in NeedStatuses then {} else {"status"})
  }

  /** `new Need(input)` validated at `save()` time `now`. `title` and
      `quantityOrAmount` are trimmed before their length is checked;
      `description` is not trimmed. */
  function NewNeed(id: Id, now: nat, input: NeedInput): (r: Validated<Need>)
    ensures r.Valid? <==>
      PresentString(Trimmed(input.title)) && |Trim(input.title.value)| <= 100
      && PresentString(input.description) && |input.description.value| <= 500
      && PresentString(Trimmed(input.quantityOrAmount)) && |Trim(input.quantityOrAmount.value)| <= 50
      && input.branch.Some?
      && (input.status.None? || input.status.value in {"PENDING", "APPROVED", "REJECTED", "FULFILLED"})
    ensures r.Valid? ==>
      WellFormedNeed(r.doc) && r.doc.id == id && r.doc.createdAt == now
      && r.doc.branch == input.branch.value && r.doc.description == input.description.value
      && r.doc.fulfilledDate == input.fulfilledDate
    ensures r.Valid? ==>
      r.doc.title == Trim(input.title.value) && r.doc.quantityOrAmount == Trim(input.quantityOrAmount.value)
    ensures r.Valid? ==> r.doc.status == (if input.status.Some? then input.status.value else "PENDING")
    ensures r.Invalid? ==> r.paths != {}
  {
    var errors := NeedErrors(input);
    if errors != {} then Invalid(errors)
    else
      TrimShape(input.title.value);
      TrimShape(input.quantityOrAmount.value);
      Valid(Need(id, Trim(input.title.value), input.description.value,
                 Trim(input.quantityOrAmount.value), input.branch.value,
                 if input.status.Some? then input.status.value else "PENDING",
                 input.fulfilledDate, now))
  }

  // ---------------------------------------------------------------- Student (server/models/Student.js)

  datatype StudentInput = StudentInput(
    name: Option<string>, branch: Option<Id>, dateOfBirth: Option<int>,
    guardianName: Option<string>, isActive: Option<bool>)

  datatype Student = Student(
    id: Id, name: string, branch: Id, dateOfBirth: Option<int>, guardianName: Option<string>,
    isActive: bool, createdAt: nat)

  function StudentErrors(input: StudentInput): set<string>
  {
    (if PresentString(Trimmed(input.name)) then {} else {"name"})
    + (if input.branch.Some? then {} else {"branch"})
  }

  /** `Student.create(input)` against the schema the student service uses. */
  function NewStudent(id: Id, now: nat, input: StudentInput): (r: Validated<Student>)
    ensures r.Valid? <==> PresentString(Trimmed(input.name)) && input.branch.Some?
    ensures r.Valid? ==>
      r.doc.name == Trim(input.name.value) && r.doc.name != [] && IsTrimmed(r.doc.name) && r.doc.id == id
      && r.doc.createdAt == now && r.doc.branch == input.branch.value
      && r.doc.dateOfBirth == input.dateOfBirth && r.doc.guardianName == input.guardianName
      && r.doc.isActive == (input.isActive != Some(false))
    ensures r.Invalid? ==> r.paths != {} && r.paths <= {"name", "branch"}
  {
    var errors := StudentErrors(input);
    if errors != {} then Invalid(errors)
    else
      TrimShape(input.name.value);
      Valid(Student(id, Trim(input.name.value), input.branch.value, input.dateOfBirth,
                    input.guardianName, if input.isActive.Some? then input.isActive.value else true, now))
  }

  // ---------------------------------------------------------------- Student profile (server/src/models/Student.js)

  datatype Gender = Male | Female | OtherGender

  function ParseGender(s: string): (r: Option<Gender>)
    ensures r.Some? <==> s in {"Male", "Female", "Other"}
  {
    if s == "Male" then Some(Male) else if s == "Female" then Some(Female)
    else if s == "Other" then Some(OtherGender) else None
  }

  datatype ProfileInput = ProfileInput(
    name: Option<string>, branch: Option<Id>, dateOfBirth: Option<int>, guardianName: Option<string>,
    isActive: Option<bool>, gender: Option<string>, contactNumber: Option<string>,
    address: Option<string>, enrollmentDate: Option<int>)

  datatype StudentProfile = StudentProfile(
    id: Id, name: string, branch: Id, dateOfBirth: Option<int>, guardianName: Option<string>,
    isActive: bool, gender: Option<Gender>, contactNumber: Option<string>, address: Option<string>,
    enrollmentDate: int)

  function ProfileErrors(input: ProfileInput): set<string>
  {
    (if PresentString(Trimmed(input.name)) then {} else {"name"})
    + (if input.branch.Some? then {} else {"branch"})
    + (if input.gender.None? || ParseGender(input.gender.value).Some? then {} else {"gender"})
  }

  /** Creating a student under the newer schema at time `now`. An empty gender
      string is not in the enum and is refused; an absent one is accepted. */
  function NewProfile(id: Id, now: int, input: ProfileInput): (r: Validated<StudentProfile>)
    ensures r.Valid? <==>
      PresentString(Trimmed(input.name)) && input.branch.Some?
      && (input.gender.None? || input.gender.value in {"Male", "Female", "Other"})
    ensures r.Valid? ==> r.doc.id == id && r.doc.name == Trim(input.name.value) && IsTrimmed(r.doc.name) && r.doc.name != []
    ensures r.Valid? ==>
      r.doc.branch == input.branch.value && r.doc.dateOfBirth == input.dateOfBirth
      && r.doc.guardianName == input.guardianName
    ensures r.Valid? ==> r.doc.gender == (if input.gender.Some? then ParseGender(input.gender.value) else None)
    ensures r.Valid? ==>
      r.doc.contactNumber == Trimmed(input.contactNumber) && r.doc.address == Trimmed(input.address)
    ensures r.Valid? ==> r.doc.isActive == (input.isActive != Some(false))
    ensures r.Valid? ==> r.doc.enrollmentDate == (if input.enrollmentDate.Some? then input.enrollmentDate.value else now)
    ensures r.Invalid? ==> r.paths != {} && r.paths <= {"name", "branch", "gender"}
  {
    var errors := ProfileErrors(input);
    if errors != {} then Invalid(errors)
    else
      TrimShape(input.name.value);
      Valid(StudentProfile(id, Trim(input.name.value), input.branch.value, input.dateOfBirth,
        input.guardianName, if input.isActive.Some? then input.isActive.value else true,
        if input.gender.Some? then ParseGender(input.gender.value) else None,
        Trimmed(input.contactNumber), Trimmed(input.address),
        if input.enrollmentDate.Some? then input.enrollmentDate.value else now))
  }

  /** A whitespace-only name is refused: `trim` runs before `required`. */
  lemma BlankNameRefused(id: Id, input: UserInput)
    requires input.name.Some? && forall k :: 0 <= k < |input.name.value| ==> IsSpace(input.name.value[k])
    ensures NewUser(id, input).Invalid? && "name" in NewUser(id, input).paths
  {
    TrimShape(input.name.value);
  }

  /** Two emails that differ only in case or surrounding whitespace are stored as the same
      address, so the unique index treats them as one. */
  lemma EmailNormalFormIdempotent(s: string)
    ensures NormalizeEmail(NormalizeEmail(s)) == NormalizeEmail(s)
  {
    TrimLowerCommute(s);
    ToLowerIdempotent(s);
    TrimIdempotent(ToLower(s));
    TrimLowerCommute(NormalizeEmail(s));
    ToLowerIdempotent(Trim(s));
    TrimShape(ToLower(s));
    var t := NormalizeEmail(s);
    assert ToLower(t) == t by {
      var i, j :| 0 <= i <= j <= |ToLower(s)| && t == ToLower(s)[i..j];
    }
  }
}
