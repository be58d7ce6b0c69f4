/** The branch service (server/src/services/branch.services.js): branches and
    their admin users, written inside a transaction. Every operation either
    commits all of its writes or, when it aborts, leaves both collections as
    they were. */
module Branches {
  import opened Common
  import opened Text
  import opened Schemas

  const BranchNotFoundMessage := "Branch not found"
  const NoAdminMessage := "Branch does not have an admin to update."
  const AdminNotFoundMessage := "Admin user not found."
  /** The leading words of the messages of the errors a write can throw. */
  const BranchInvalidMessage := "Branch validation failed"
  const UserInvalidMessage := "User validation failed"
  const DuplicateKeyMessage := "E11000 duplicate key error"

  /** The `branch` part of an update body. `admin` is absent (None), `null`
      (Some(None)) or an id; `otherKeys` counts keys that are not schema paths
      (such as `paymentInfo`), which count as keys but are never stored. */
  datatype BranchPatch = BranchPatch(
    name: Option<string>, phoneNumber: Option<string>, location: Option<string>,
    admin: Option<Option<Id>>, otherKeys: nat)

  /** The `admin` part of an update body: every path of the User schema may be
      given. `branch`, `address` and `phoneNumber` may also be `null` (Some(None)). */
  datatype AdminPatch = AdminPatch(
    name: Option<string>, email: Option<string>, password: Option<string>,
    role: Option<string>, isActive: Option<bool>, branch: Option<Option<Id>>,
    address: Option<Option<string>>, phoneNumber: Option<Option<string>>, otherKeys: nat)

  /** `{ branch, admin }` as the controller passes it; None is undefined or null. */
  datatype UpdateRequest = UpdateRequest(branch: Option<BranchPatch>, admin: Option<AdminPatch>)

  /** A branch as `findById(...).populate("admin")` shows it. */
  datatype BranchView = BranchView(branch: Branch, admin: Option<User>)

  /** What `createBranch` answers: the branch as first created, and the new admin. */
  datatype CreatedBranch = CreatedBranch(branch: Branch, admin: Option<User>)

  function Count<T>(o: Option<T>): nat { if o.Some? then 1 else 0 }

  /** `Object.keys(branchUpdateData).length`. */
  function BranchKeys(p: BranchPatch): nat
  {
    Count(p.name) + Count(p.phoneNumber) + Count(p.location) + Count(p.admin) + p.otherKeys
  }

  /** `Object.keys(adminUpdateData).length`. */
  function AdminKeys(p: AdminPatch): nat
  {
    Count(p.name) + Count(p.email) + Count(p.password) + Count(p.role) + Count(p.isActive)
    + Count(p.branch) + Count(p.address) + Count(p.phoneNumber) + p.otherKeys
  }

  /** The `admin` key is removed from a branch update whatever its value, so no
      update can re-point or clear `branch.admin`. */
  function StripAdmin(p: BranchPatch): (q: BranchPatch)
    ensures q.admin.None?
    ensures q.name == p.name && q.phoneNumber == p.phoneNumber && q.location == p.location
  {
    p.(admin := None)
  }

  /** Another user already holds this email: the unique index refuses it. */
  predicate EmailTaken(users: map<Id, User>, email: string, except: Option<Id>)
  {
    exists id :: id in users && Some(id) != except && users[id].email == email
  }

  predicate UniqueEmails(users: map<Id, User>)
  {
    forall a, b :: a in users && b in users && a != b ==> users[a].email != users[b].email
  }

  /** `Object.assign(branch, patch)` followed by `branch.save()`: the `trim`
      setters run on assignment and the `required` validators on save. */
  function ApplyBranchPatch(b: Branch, p: BranchPatch): (r: Validated<Branch>)
    requires WellFormedBranch(b)
    ensures r.Valid? <==>
      (p.name.None? || Trim(p.name.value) != [])
      && (p.phoneNumber.None? || Trim(p.phoneNumber.value) != [])
      && (p.location.None? || Trim(p.location.value) != [])
    ensures r.Invalid? ==> r.paths != {} && r.paths <= {"name", "phoneNumber", "location"}
    ensures r.Valid? ==> WellFormedBranch(r.doc) && r.doc.id == b.id
    ensures r.Valid? ==> r.doc.admin == (if p.admin.Some? then p.admin.value else b.admin)
    ensures r.Valid? ==> r.doc.name == (if p.name.Some? then Trim(p.name.value) else b.name)
    ensures r.Valid? ==>
      r.doc.phoneNumber == (if p.phoneNumber.Some? then Trim(p.phoneNumber.value) else b.phoneNumber)
    ensures r.Valid? ==>
      r.doc.location == (if p.location.Some? then Trim(p.location.value) else b.location)
  {
    var name := if p.name.Some? then Trim(p.name.value) else b.name;
    var phone := if p.phoneNumber.Some? then Trim(p.phoneNumber.value) else b.phoneNumber;
    var location := if p.location.Some? then Trim(p.location.value) else b.location;
    if name == [] || phone == [] || location == [] then
      Invalid((if name == [] then {"name"} else {}) + (if phone == [] then {"phoneNumber"} else {})
              + (if location == [] then {"location"} else {}))
    else
      EveryTrimIsTrimmed();
      Valid(Branch(b.id, name, phone, location, if p.admin.Some? then p.admin.value else b.admin))
  }

  /** `Object.assign(admin, patch)` followed by the User schema's validators on
      `admin.save()`. The unique email index is a separate, later check (see
      PlanUpdate). */
  function ApplyAdminPatch(u: User, p: AdminPatch): (r: Validated<User>)
    requires WellFormedUser(u)
    ensures r.Valid? <==>
      (p.name.None? || Trim(p.name.value) != [])
      && (p.email.None? || NormalizeEmail(p.email.value) != [])
      && (p.password.None? || |p.password.value| >= MinPasswordLength)
      && (p.role.None? || ParseRole(p.role.value).Some?)
    ensures r.Invalid? ==> r.paths != {} && r.paths <= {"name", "email", "password", "role"}
    ensures r.Valid? ==> WellFormedUser(r.doc) && r.doc.id == u.id
    ensures r.Valid? ==> r.doc.name == (if p.name.Some? then Trim(p.name.value) else u.name)
    ensures r.Valid? ==> r.doc.email == (if p.email.Some? then NormalizeEmail(p.email.value) else u.email)
    ensures r.Valid? ==> r.doc.password == (if p.password.Some? then p.password.value else u.password)
    ensures r.Valid? ==> r.doc.role == (if p.role.Some? then ParseRole(p.role.value).value else u.role)
    ensures r.Valid? ==> r.doc.isActive == (if p.isActive.Some? then p.isActive.value else u.isActive)
    ensures r.Valid? ==> r.doc.branch == (if p.branch.Some? then p.branch.value else u.branch)
    ensures r.Valid? ==> r.doc.address == (if p.address.Some? then p.address.value else u.address)
    ensures r.Valid? ==>
      r.doc.phoneNumber == (if p.phoneNumber.Some? then p.phoneNumber.value else u.phoneNumber)
  {
    var name := if p.name.Some? then Trim(p.name.value) else u.name;
    var email := if p.email.Some? then NormalizeEmail(p.email.value) else u.email;
    var password := if p.password.Some? then p.password.value else u.password;
    var role := if p.role.Some? then ParseRole(p.role.value) else Some(u.role);
    var errors := (if name == [] then {"name"} else {}) + (if email == [] then {"email"} else {})
      + (if |password| < MinPasswordLength then {"password"} else {})
      + (if role.None? then {"role"} else {});
    if errors != {} then Invalid(errors)
    else
      EveryTrimIsTrimmed();
      EveryNormalizedEmail();
      Valid(u.(name := name, email := email, password := password, role := role.value,
               isActive := if p.isActive.Some? then p.isActive.value else u.isActive,
               branch := if p.branch.Some? then p.branch.value else u.branch,
               address := if p.address.Some? then p.address.value else u.address,
               phoneNumber := if p.phoneNumber.Some? then p.phoneNumber.value else u.phoneNumber))
  }

  lemma EveryTrimIsTrimmed()
    ensures forall s :: IsTrimmed(Trim(s))
  {
    forall s {
      TrimIsTrimmed(s);
    }
  }

  lemma EveryNormalizedEmail()
    ensures forall s :: IsTrimmed(NormalizeEmail(s)) && NoUpper(NormalizeEmail(s))
  {
    forall s {
      NormalizedEmailShape(s);
    }
  }

  // ---------------------------------------------------------------- what each write does

  datatype CreatePlan = CreateFails(message: string) | CreateCommits(branch: Branch, admin: Option<User>, created: Branch)

  /** The outcome of `createBranch(branchData, adminData)` with the next free ids
      `next` (branch) and `next + 1` (admin). */
  function PlanCreate(users: map<Id, User>, next: Id, input: BranchInput, adminData: Option<UserInput>)
    : (p: CreatePlan)
    ensures NewBranch(next, input).Invalid? ==> p == CreateFails(BranchInvalidMessage)
    ensures p.CreateCommits? ==>
      NewBranch(next, input).Valid? && p.created == NewBranch(next, input).doc
      && p.branch.id == next && WellFormedBranch(p.branch)
    ensures adminData.None? ==>
      (p.CreateCommits? <==> NewBranch(next, input).Valid?)
      && (p.CreateCommits? ==> p.admin.None? && p.branch == p.created)
    ensures p.CreateCommits? && adminData.Some? ==>
      p.admin.Some? && p.admin.value.id == next + 1
      && p.admin.value.role == BranchAdmin && p.admin.value.branch == Some(next)
      && p.branch == p.created.(admin := Some(next + 1))
      && WellFormedUser(p.admin.value) && !EmailTaken(users, p.admin.value.email, None)
  {
    var v := NewBranch(next, input);
    if v.Invalid? then CreateFails(BranchInvalidMessage)
    else if adminData.None? then CreateCommits(v.doc, None, v.doc)
    else
      var u := NewUser(next + 1, adminData.value.(role := Some("BRANCH_ADMIN"), branch := Some(next)));
      if u.Invalid? then CreateFails(UserInvalidMessage)
      else if EmailTaken(users, u.doc.email, None) then CreateFails(DuplicateKeyMessage)
      else CreateCommits(v.doc.(admin := Some(u.doc.id)), Some(u.doc), v.doc)
  }

  datatype UpdatePlan = UpdateFails(status: Status, message: string) | UpdateCommits(branch: Branch, admin: Option<User>)

  /** The branch after the first write of `updateBranchById`: patched when the
      branch part of the body has keys, otherwise as it was. */
  function PatchedBranch(b: Branch, req: UpdateRequest): Validated<Branch>
    requires WellFormedBranch(b)
  {
    if req.branch.Some? && BranchKeys(req.branch.value) > 0
    then ApplyBranchPatch(b, StripAdmin(req.branch.value))
    else Valid(b)
  }

  /** The admin part of the body has keys, so the admin is written. */
  predicate WritesAdmin(req: UpdateRequest)
  {
    req.admin.Some? && AdminKeys(req.admin.value) > 0
  }

  /** The outcome of `updateBranchById(id, request)`. A save refused by the User
      validators and one refused by the unique email index are told apart by
      their messages. */
  function PlanUpdate(branches: map<Id, Branch>, users: map<Id, User>, id: Id, req: UpdateRequest)
    : (p: UpdatePlan)
    requires id in branches ==> WellFormedBranch(branches[id]) && branches[id].id == id
    requires forall u :: u in users ==> WellFormedUser(users[u]) && users[u].id == u
    ensures id !in branches ==> p == UpdateFails(NotFound, BranchNotFoundMessage)
    ensures p.UpdateFails? ==> p.status in {NotFound, BadRequest, ServerError}
    ensures id in branches && PatchedBranch(branches[id], req).Invalid? ==>
      p == UpdateFails(ServerError, BranchInvalidMessage)
    ensures p.UpdateCommits? ==>
      id in branches && PatchedBranch(branches[id], req) == Valid(p.branch)
      && p.branch.id == id && p.branch.admin == branches[id].admin && WellFormedBranch(p.branch)
    ensures p.UpdateCommits? ==> (p.admin.Some? <==> WritesAdmin(req))
    ensures p.UpdateCommits? && p.admin.Some? ==>
      branches[id].admin == Some(p.admin.value.id) && p.admin.value.id in users
      && ApplyAdminPatch(users[p.admin.value.id], req.admin.value) == Valid(p.admin.value)
      && WellFormedUser(p.admin.value) && !EmailTaken(users, p.admin.value.email, Some(p.admin.value.id))
    ensures p == UpdateFails(BadRequest, NoAdminMessage) <==>
      id in branches && PatchedBranch(branches[id], req).Valid? && WritesAdmin(req)
      && branches[id].admin.None?
    ensures p == UpdateFails(NotFound, AdminNotFoundMessage) <==>
      id in branches && PatchedBranch(branches[id], req).Valid? && WritesAdmin(req)
      && branches[id].admin.Some? && branches[id].admin.value !in users
    ensures p == UpdateFails(ServerError, UserInvalidMessage) <==>
      id in branches && PatchedBranch(branches[id], req).Valid? && WritesAdmin(req)
      && branches[id].admin.Some? && branches[id].admin.value in users
      && ApplyAdminPatch(users[branches[id].admin.value], req.admin.value).Invalid?
    ensures p == UpdateFails(ServerError, DuplicateKeyMessage) <==>
      id in branches && PatchedBranch(branches[id], req).Valid? && WritesAdmin(req)
      && branches[id].admin.Some? && branches[id].admin.value in users
      && var a := ApplyAdminPatch(users[branches[id].admin.value], req.admin.value);
         a.Valid? && EmailTaken(users, a.doc.email, Some(a.doc.id))
  {
    if id !in branches then UpdateFails(NotFound, BranchNotFoundMessage)
    else
      var patched := PatchedBranch(branches[id], req);
      if patched.Invalid? then UpdateFails(ServerError, BranchInvalidMessage)
      else if !WritesAdmin(req) then UpdateCommits(patched.doc, None)
      else if patched.doc.admin.None? then UpdateFails(BadRequest, NoAdminMessage)
      else if patched.doc.admin.value !in users then UpdateFails(NotFound, AdminNotFoundMessage)
      else
        var a := ApplyAdminPatch(users[patched.doc.admin.value], req.admin.value);
        if a.Invalid? then UpdateFails(ServerError, UserInvalidMessage)
        else if EmailTaken(users, a.doc.email, Some(a.doc.id)) then UpdateFails(ServerError, DuplicateKeyMessage)
        else UpdateCommits(patched.doc, Some(a.doc))
  }

  // ---------------------------------------------------------------- reads

  function View(branches: map<Id, Branch>, users: map<Id, User>, id: Id): (v: BranchView)
    requires id in branches
    ensures v.branch == branches[id]
    ensures v.admin.Some? <==> branches[id].admin.Some? && branches[id].admin.value in users
    ensures v.admin.Some? ==> v.admin.value == users[branches[id].admin.value]
  {
    var b := branches[id];
    BranchView(b, if b.admin.Some? && b.admin.value in users then Some(users[b.admin.value]) else None)
  }

  /** `getBranchById`. */
  function GetBranchById(branches: map<Id, Branch>, users: map<Id, User>, id: Id): (r: ServiceResult<BranchView>)
    ensures id !in branches ==> r == Fail(NotFound, BranchNotFoundMessage)
    ensures id in branches ==> r == Ok(View(branches, users, id))
  {
    if id in branches then Ok(View(branches, users, id)) else Fail(NotFound, BranchNotFoundMessage)
  }

  /** `getAllBranches`: every branch with its admin. */
  function GetAllBranches(branches: map<Id, Branch>, users: map<Id, User>): (r: ServiceResult<map<Id, BranchView>>)
    ensures r.status == Success && r.data.Some?
    ensures r.data.value.Keys == branches.Keys
    ensures forall id :: id in branches ==> r.data.value[id] == View(branches, users, id)
  {
    Ok(map id | id in branches :: View(branches, users, id))
  }

  // ---------------------------------------------------------------- the store

  /** What holds of the two collections between requests. */
  ghost predicate Consistent(branches: map<Id, Branch>, users: map<Id, User>, next: nat)
  {
    (forall id :: id in branches ==> branches[id].id == id && id < next && WellFormedBranch(branches[id]))
    && (forall id :: id in users ==> users[id].id == id && id < next && WellFormedUser(users[id]))
    && UniqueEmails(users)
  }

  lemma WriteBranch(branches: map<Id, Branch>, users: map<Id, User>, next: nat, b: Branch)
    requires Consistent(branches, users, next) && b.id < next && WellFormedBranch(b)
    ensures Consistent(branches[b.id := b], users, next)
  {
  }

  lemma WriteUser(branches: map<Id, Branch>, users: map<Id, User>, next: nat, u: User)
    requires Consistent(branches, users, next) && u.id < next && WellFormedUser(u)
    requires !EmailTaken(users, u.email, Some(u.id))
    ensures Consistent(branches, users[u.id := u], next)
  {
  }

  lemma BranchWritten(branches: map<Id, Branch>, users: map<Id, User>, next: nat, b: Branch)
    requires Consistent(branches, users, next) && b.id == next && WellFormedBranch(b)
    ensures Consistent(branches[b.id := b], users, next + 1)
  {
  }

  lemma AdminWritten(branches: map<Id, Branch>, users: map<Id, User>, next: nat, u: User, b: Branch)
    requires Consistent(branches, users, next) && u.id == next && WellFormedUser(u)
    requires !EmailTaken(users, u.email, None) && b.id < next && WellFormedBranch(b)
    ensures Consistent(branches[b.id := b], users[u.id := u], next + 1)
  {
  }

  lemma Grow(branches: map<Id, Branch>, users: map<Id, User>, next: nat, later: nat)
    requires Consistent(branches, users, next) && next <= later
    ensures Consistent(branches, users, later)
  {
  }

  lemma RemoveBoth(branches: map<Id, Branch>, users: map<Id, User>, next: nat, b: Id, u: set<Id>)
    requires Consistent(branches, users, next)
    ensures Consistent(branches - {b}, users - u, next)
  {
  }

  class BranchStore {
    var branches: map<Id, Branch>
    var users: map<Id, User>
    var nextId: nat

    ghost predicate Valid()
      reads this
    {
      Consistent(branches, users, nextId)
    }

    constructor()
      ensures Valid() && branches == map[] && users == map[]
    {
      branches := map[];
      users := map[];
      nextId := 0;
    }

    /** `createBranch(branchData, adminData)`. */
    method CreateBranch(input: BranchInput, adminData: Option<UserInput>) returns (r: ServiceResult<CreatedBranch>)
      requires Valid()
      modifies this
      ensures Valid() && nextId >= old(nextId)
      ensures match PlanCreate(old(users), old(nextId), input, adminData)
        case CreateFails(message) =>
          r == Fail(ServerError, message) && branches == old(branches) && users == old(users)
        case CreateCommits(branch, admin, created) =>
          r == Ok(CreatedBranch(created, admin))
          && branches == old(branches)[branch.id := branch]
          && users == (if admin.Some? then old(users)[admin.value.id := admin.value] else old(users))
    {
      var plan := PlanCreate(users, nextId, input, adminData);
      match plan {
        case CreateFails(message) =>
          // abortTransaction: the writes made before the failure are rolled back
          r := Fail(ServerError, message);
        case CreateCommits(branch, admin, created) =>
          if admin.None? {
            BranchWritten(branches, users, nextId, branch);
            branches, nextId := branches[branch.id := branch], nextId + 1;
          } else {
            Grow(branches, users, nextId, nextId + 1);
            AdminWritten(branches, users, nextId + 1, admin.value, branch);
            branches := branches[branch.id := branch];
            users := users[admin.value.id := admin.value];
            nextId := nextId + 2;
          }
          r := Ok(CreatedBranch(created, admin));
      }
    }

    /** `updateBranchById(id, { branch, admin })`. */
    method UpdateBranch(id: Id, req: UpdateRequest) returns (r: ServiceResult<BranchView>)
      requires Valid()
      modifies this
      ensures Valid() && nextId == old(nextId)
      ensures match PlanUpdate(old(branches), old(users), id, req)
        case UpdateFails(status, message) =>
          r == Fail(status, message) && branches == old(branches) && users == old(users)
        case UpdateCommits(branch, admin) =>
          branches == old(branches)[id := branch]
          && users == (if admin.Some? then old(users)[admin.value.id := admin.value] else old(users))
          && r == Ok(View(branches, users, id))
    {
      var plan := PlanUpdate(branches, users, id, req);
      match plan {
        case UpdateFails(status, message) =>
          // abortTransaction
          r := Fail(status, message);
        case UpdateCommits(branch, admin) =>
          WriteBranch(branches, users, nextId, branch);
          branches := branches[id := branch];
          if admin.Some? {
            WriteUser(branches, users, nextId, admin.value);
            users := users[admin.value.id := admin.value];
          }
          r := Ok(View(branches, users, id));
      }
    }

    /** `deleteBranchById(id)`: the branch and its admin user go; nothing else is touched. */
    method DeleteBranch(id: Id) returns (r: ServiceResult<Branch>)
      requires Valid()
      modifies this
      ensures Valid() && nextId == old(nextId)
      ensures id !in old(branches) ==>
        r == Fail(NotFound, BranchNotFoundMessage) && branches == old(branches) && users == old(users)
      ensures id in old(branches) ==>
        r == Ok(old(branches)[id]) && branches == old(branches) - {id}
        && users == (if old(branches)[id].admin.Some? then old(users) - {old(branches)[id].admin.value} else old(users))
    {
      if id !in branches {
        r := Fail(NotFound, BranchNotFoundMessage);
        return;
      }
      var b := branches[id];
      RemoveBoth(branches, users, nextId, id, if b.admin.Some? then {b.admin.value} else {});
      if b.admin.Some? {
        users := users - {b.admin.value};
      }
      branches := branches - {id};
      r := Ok(b);
    }
  }

  /** A committed creation is visible at once: reading the new id shows the
      branch linked to its new admin. */
  lemma CreatedBranchIsFound(branches: map<Id, Branch>, users: map<Id, User>, next: nat,
                             input: BranchInput, adminData: Option<UserInput>)
    requires Consistent(branches, users, next)
    requires adminData.Some? && PlanCreate(users, next, input, adminData).CreateCommits?
    ensures var p := PlanCreate(users, next, input, adminData);
      GetBranchById(branches[p.branch.id := p.branch], users[p.admin.value.id := p.admin.value], next)
        == Ok(BranchView(p.branch, p.admin))
  {
    var p := PlanCreate(users, next, input, adminData);
    var users' := users[p.admin.value.id := p.admin.value];
    assert p.branch.admin == Some(p.admin.value.id) && p.admin.value.id in users';
  }

  /** A committed update is visible at once: reading the branch shows the patched
      fields, the same admin link, and the admin as saved. */
  lemma UpdatedBranchIsFound(branches: map<Id, Branch>, users: map<Id, User>, next: nat,
                             id: Id, req: UpdateRequest)
    requires Consistent(branches, users, next)
    requires PlanUpdate(branches, users, id, req).UpdateCommits?
    ensures var p := PlanUpdate(branches, users, id, req);
      var users' := if p.admin.Some? then users[p.admin.value.id := p.admin.value] else users;
      var r := GetBranchById(branches[id := p.branch], users', id);
      r.status == Success && r.data.Some? && r.data.value.branch == p.branch
      && r.data.value.branch.admin == branches[id].admin
      && (req.branch.Some? && req.branch.value.name.Some? ==>
            r.data.value.branch.name == Trim(req.branch.value.name.value))
      && (req.branch.Some? && req.branch.value.phoneNumber.Some? ==>
            r.data.value.branch.phoneNumber == Trim(req.branch.value.phoneNumber.value))
      && (req.branch.Some? && req.branch.value.location.Some? ==>
            r.data.value.branch.location == Trim(req.branch.value.location.value))
      && (p.admin.Some? ==> r.data.value.admin == p.admin)
      && (WritesAdmin(req) && req.admin.value.email.Some? ==>
            r.data.value.admin.Some? && r.data.value.admin.value.email == NormalizeEmail(req.admin.value.email.value))
  {
    var p := PlanUpdate(branches, users, id, req);
    if req.branch.Some? && (req.branch.value.name.Some? || req.branch.value.phoneNumber.Some?
                            || req.branch.value.location.Some?) {
      assert BranchKeys(req.branch.value) > 0;
    }
  }

  /** A blank email in the admin part fails the `required` validator: the update
      answers SERVER_ERROR with the validation message, not the duplicate-key one. */
  lemma BlankAdminEmailIsInvalid(branches: map<Id, Branch>, users: map<Id, User>, next: nat, id: Id)
    requires Consistent(branches, users, next)
    requires id in branches && branches[id].admin.Some? && branches[id].admin.value in users
    ensures var patch := AdminPatch(None, Some(" "), None, None, None, None, None, None, 0);
      PlanUpdate(branches, users, id, UpdateRequest(None, Some(patch)))
        == UpdateFails(ServerError, UserInvalidMessage)
  {
    assert IsSpace(' ');
    assert ToLower(" ") == " ";
    assert TrimStart(" ") == [];
  }

  /** The admin part may carry `branch`: the saved admin then belongs to the
      given branch, while the branch keeps its link to that admin. */
  lemma AdminCanBeMovedToAnotherBranch(branches: map<Id, Branch>, users: map<Id, User>, next: nat,
                                       id: Id, other: Id)
    requires Consistent(branches, users, next)
    requires id in branches && branches[id].admin.Some? && branches[id].admin.value in users
    ensures var patch := AdminPatch(None, None, None, None, None, Some(Some(other)), None, None, 0);
      var p := PlanUpdate(branches, users, id, UpdateRequest(None, Some(patch)));
      p.UpdateCommits? && p.branch == branches[id] && p.admin.Some?
      && p.admin.value.id == branches[id].admin.value && p.admin.value.branch == Some(other)
  {
    var u := users[branches[id].admin.value];
    assert !EmailTaken(users, u.email, Some(u.id));
  }

  /** The guard `if (branchUpdateData.admin) delete branchUpdateData.admin` as
      written: only a truthy `admin` is removed, so `admin: null` is kept. */
  function StripAdminAsWritten(p: BranchPatch): (q: BranchPatch)
    ensures p.admin.Some? && p.admin.value.Some? ==> q.admin.None?
    ensures p.admin.None? || p.admin.value.None? ==> q == p
  {
    if p.admin.Some? && p.admin.value.Some? then p.(admin := None) else p
  }

  /** With the guard as written, `{ branch: { admin: null } }` unlinks a branch
      from its admin; with StripAdmin the link is kept. */
  lemma NullAdminUnlinksBranch(b: Branch)
    requires WellFormedBranch(b) && b.admin.Some?
    ensures var p := BranchPatch(None, None, None, Some(None), 0);
      var asWritten := ApplyBranchPatch(b, StripAdminAsWritten(p));
      var corrected := ApplyBranchPatch(b, StripAdmin(p));
      asWritten.Valid? && asWritten.doc.admin.None?
      && corrected.Valid? && corrected.doc.admin == b.admin
  {
  }
}
