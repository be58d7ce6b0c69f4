/** The head admin's branch page (client/src/pages/headAdmin/BranchManagement.jsx):
    the form it opens for adding or editing a branch with its admin, and the
    request its submit handler sends. */
module BranchManagement {
  import opened Common
  import opened Js
  import opened FormModal

  /** The `paymentInfo` object the branch body carries. */
  function PaymentInfo(form: FormData): (p: Json)
    ensures p.Obj? && p.fields.Keys == {"accountTitle", "bankName", "accountNumber"}
    ensures forall k :: k in p.fields ==> p.fields[k] == Lookup(form, k)
  {
    Obj(map["accountTitle" := Lookup(form, "accountTitle"), "bankName" := Lookup(form, "bankName"),
            "accountNumber" := Lookup(form, "accountNumber")])
  }

  /** `branchData`: the three branch fields, with the bank details grouped under `paymentInfo`. */
  function BranchData(form: FormData): (b: Json)
    ensures b.Obj? && b.fields.Keys == {"name", "location", "phoneNumber", "paymentInfo"}
    ensures forall k :: k in {"name", "location", "phoneNumber"} ==> Member(b, k) == Lookup(form, k)
    ensures forall k :: k in {"accountTitle", "bankName", "accountNumber"} ==>
      Member(Member(b, "paymentInfo"), k) == Lookup(form, k)
  {
    Obj(map["name" := Lookup(form, "name"), "location" := Lookup(form, "location"),
            "phoneNumber" := Lookup(form, "phoneNumber"), "paymentInfo" := PaymentInfo(form)])
  }

  /** The admin object of an edit: name and email, and the password only when one was typed. */
  method EditAdmin(form: FormData) returns (admin: map<string, Json>)
    ensures admin.Keys == {"name", "email"} + (if Truthy(Lookup(form, "adminPassword")) then {"password"} else {})
    ensures admin["name"] == Lookup(form, "adminName") && admin["email"] == Lookup(form, "adminEmail")
    ensures "password" in admin ==> admin["password"] == Lookup(form, "adminPassword")
  {
    admin := map["name" := Lookup(form, "adminName"), "email" := Lookup(form, "adminEmail")];
    if Truthy(Lookup(form, "adminPassword")) {
      admin := admin["password" := Lookup(form, "adminPassword")];
    }
  }

  const AddedMessage := "Branch created successfully."
  const UpdatedMessage := "Branch updated successfully."
  const ErrorMessage := "An error occurred."
  const UnexpectedMessage := "An unexpected error occurred."

  /** The page's form and toast state. */
  class BranchesPage {
    var formMode: FormMode
    var selected: Json
    var formOpen: bool
    var isSubmitting: bool
    var toast: Option<Toast>

    constructor()
      ensures formMode == Add && selected == Null && !formOpen && !isSubmitting && toast.None?
    {
      formMode := Add;
      selected := Null;
      formOpen := false;
      isSubmitting := false;
      toast := None;
    }

    /** `handleFormSubmit`: an add posts the branch with a full admin (password
        included); an edit updates the selected branch, its admin carrying a
        password only when one was typed. A fulfilled request closes the form. */
    method Submit(form: FormData, reply: Reply) returns (req: Request)
      modifies this
      ensures formMode == old(formMode) && selected == old(selected) && !isSubmitting
      ensures formMode == Add ==>
        req == Create("branches", Obj(map["branch" := BranchData(form),
          "admin" := Obj(map["name" := Lookup(form, "adminName"), "email" := Lookup(form, "adminEmail"),
                             "password" := Lookup(form, "adminPassword")])]))
      ensures formMode == Edit ==>
        req.Update? && req.resource == "branches" && req.id == Member(selected, "_id")
        && Member(req.body, "branch") == BranchData(form)
        && req.body.Obj? && req.body.fields.Keys == {"branch", "admin"}
        && var admin := Member(req.body, "admin");
           admin.Obj?
           && admin.fields.Keys == {"name", "email"} + (if Truthy(Lookup(form, "adminPassword")) then {"password"} else {})
           && Member(admin, "name") == Lookup(form, "adminName")
           && Member(admin, "email") == Lookup(form, "adminEmail")
           && ("password" in admin.fields ==> admin.fields["password"] == Lookup(form, "adminPassword"))
      ensures reply.Fulfilled? ==>
        toast == Some(Toast(Str(if formMode == Add then AddedMessage else UpdatedMessage), "success")) && !formOpen
      ensures reply.Rejected? ==>
        toast == Some(Toast(Or(reply.payload, Str(ErrorMessage)), "error")) && formOpen == old(formOpen)
      ensures reply.Thrown? ==>
        toast == Some(Toast(Str(UnexpectedMessage), "error")) && formOpen == old(formOpen)
    {
      isSubmitting := true;
      var branchData := BranchData(form);
      if formMode == Add {
        var admin := Obj(map["name" := Lookup(form, "adminName"), "email" := Lookup(form, "adminEmail"),
                             "password" := Lookup(form, "adminPassword")]);
        req := Create("branches", Obj(map["branch" := branchData, "admin" := admin]));
      } else {
        var admin := EditAdmin(form);
        req := Update("branches", Member(selected, "_id"), Obj(map["branch" := branchData, "admin" := Obj(admin)]));
      }
      match reply {
        case Fulfilled =>
          toast := Some(Toast(Str(if formMode == Add then AddedMessage else UpdatedMessage), "success"));
          formOpen := false;
        case Rejected(payload) =>
          toast := Some(Toast(Or(payload, Str(ErrorMessage)), "error"));
        case Thrown =>
          toast := Some(Toast(Str(UnexpectedMessage), "error"));
      }
      isSubmitting := false;
    }
  }

  /** The fields every mode shows: branch, bank details (optional) and admin name and email. */
  const CommonFields: seq<Field> := [
    Field("name", "Branch Name", true, Undefined),
    Field("location", "Location", true, Undefined),
    Field("phoneNumber", "Phone Number", true, Undefined),
    Field("accountTitle", "Account Title", false, Undefined),
    Field("bankName", "Bank / Service Name", false, Undefined),
    Field("accountNumber", "Account Number", false, Undefined),
    Field("adminName", "Admin Name", true, Undefined),
    Field("adminEmail", "Admin Email", true, Undefined)]

  /** The password field `getFormFields` pushes: required when adding, optional when editing. */
  function PasswordField(mode: FormMode): (f: Field)
    ensures f.name == "adminPassword" && (f.required <==> mode == Add)
    ensures mode == Add ==> RequiredMessage(f) == "Admin Password is required."
  {
    if mode == Add then Field("adminPassword", "Admin Password", true, Undefined)
    else Field("adminPassword", "New Password", false, Undefined)
  }

  /** `getFormFields`: the common fields, then the password field for the mode. */
  method GetFormFields(mode: FormMode) returns (fields: seq<Field>)
    ensures fields == CommonFields + [PasswordField(mode)]
  {
    fields := CommonFields;
    if mode == Add {
      fields := fields + [Field("adminPassword", "Admin Password", true, Undefined)];
    } else {
      fields := fields + [Field("adminPassword", "New Password", false, Undefined)];
    }
  }

  /** The keys an edit starts from. */
  const InitialKeys := {"name", "location", "phoneNumber", "accountTitle", "bankName", "accountNumber", "adminName", "adminEmail"}

  /** What an edit puts under each key: the branch's own field, the bank details
      or "" when they are missing, and the admin's name and email. */
  function InitialValue(selected: Json, key: string): Json
  {
    if key in {"accountTitle", "bankName", "accountNumber"} then Or(Member(Member(selected, "paymentInfo"), key), Str(""))
    else if key == "adminName" then Member(Member(selected, "admin"), "name")
    else if key == "adminEmail" then Member(Member(selected, "admin"), "email")
    else Member(selected, key)
  }

  /** `getInitialData`: an edit starts from the selected branch, bank details
      defaulting to ""; an add (or an edit with nothing selected) starts empty. */
  function InitialData(mode: FormMode, selected: Json): (d: FormData)
    ensures mode == Add || !Truthy(selected) ==> d == map[]
    ensures mode == Edit && Truthy(selected) ==>
      d.Keys == InitialKeys && forall k :: k in d ==> d[k] == InitialValue(selected, k)
  {
    if mode == Edit && Truthy(selected) then map k | k in InitialKeys :: InitialValue(selected, k)
    else map[]
  }

  /** The bank details of an edit are never undefined: each is the stored value or "". */
  lemma EditPaymentDefaults(selected: Json, key: string)
    requires Truthy(selected) && key in {"accountTitle", "bankName", "accountNumber"}
    ensures var v := InitialData(Edit, selected)[key];
      (v == Member(Member(selected, "paymentInfo"), key) && Truthy(v)) || v == Str("")
  {
  }

  /** The names of the fields that are required in both modes. */
  const RequiredNames := {"name", "location", "phoneNumber", "adminName", "adminEmail"}

  lemma CommonRequired(f: Field)
    requires f in CommonFields && f.required
    ensures f.name in RequiredNames
  {
  }

  /** Every required field filled means the form submits. */
  lemma {:induction false} NoneMissing(fields: seq<Field>, data: FormData)
    requires forall f :: f in fields && f.required ==> Truthy(Lookup(data, f.name))
    ensures FirstMissing(fields, data).None?
  {
  }

  /** A branch that has its name, location, phone and an admin with name and
      email opens in edit mode with a form that submits as it is, whatever the
      fields' defaults: no required field is empty, the new password included. */
  lemma EditOfCompleteBranchSubmits(selected: Json, defaults: FormData)
    requires selected.Obj?
    requires forall k :: k in {"name", "location", "phoneNumber"} ==> Truthy(Member(selected, k))
    requires Truthy(Member(Member(selected, "admin"), "name")) && Truthy(Member(Member(selected, "admin"), "email"))
    ensures FirstMissing(CommonFields + [PasswordField(Edit)], defaults + InitialData(Edit, selected)).None?
  {
    var fields := CommonFields + [PasswordField(Edit)];
    var init := InitialData(Edit, selected);
    var data := defaults + init;
    forall f | f in fields && f.required ensures Truthy(Lookup(data, f.name)) {
      CommonRequired(f);
      assert f.name in init && data[f.name] == InitialValue(selected, f.name);
    }
    NoneMissing(fields, data);
  }

  /** Adding with every other field filled but no password is stopped by the
      form, which names the password field. */
  lemma BlankPasswordBlocksAdd(data: FormData)
    requires forall f :: f in CommonFields && f.required ==> Truthy(Lookup(data, f.name))
    requires !Truthy(Lookup(data, "adminPassword"))
    ensures var add := CommonFields + [PasswordField(Add)];
      FirstMissing(add, data) == Some(|CommonFields|)
      && add[|CommonFields|] == PasswordField(Add)
  {
    var add := CommonFields + [PasswordField(Add)];
    forall j | 0 <= j < |CommonFields| ensures !Missing(add[j], data) {
      assert add[j] == CommonFields[j];
      assert CommonFields[j] in CommonFields;
    }
    FirstMissingIs(add, data, |CommonFields|);
  }

  /** Editing with the password left blank goes through. */
  lemma BlankPasswordKeepsEdit(data: FormData)
    requires forall f :: f in CommonFields && f.required ==> Truthy(Lookup(data, f.name))
    ensures FirstMissing(CommonFields + [PasswordField(Edit)], data).None?
  {
    NoneMissing(CommonFields + [PasswordField(Edit)], data);
  }
}
