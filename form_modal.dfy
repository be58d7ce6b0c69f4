/** The shared form dialog (client/src/components/ui/FormModal.jsx): its state
    starts from the fields' defaults overlaid with the initial data, each change
    sets one key, and submitting stops at the first required field left empty. */
module FormModal {
  import opened Common
  import opened Js

  /** One entry of the `fields` prop. `caption` is the `label` prop; an empty one stands for a missing one. */
  datatype Field = Field(name: string, caption: string, required: bool, defaultValue: Json)

  type FormData = map<string, Json>

  /** `formData[name]`: undefined for a key the form does not hold. */
  function Lookup(data: FormData, name: string): Json
  {
    if name in data then data[name] else Undefined
  }

  /** The `defaultState` built by `fields.forEach(...)`: `defaultValue || ""` per
      field name, a later field of the same name overwriting an earlier one. */
  function Defaults(fields: seq<Field>): (d: FormData)
    ensures d.Keys == set f | f in fields :: f.name
  {
    if fields == [] then map[]
    else
      var last := fields[|fields| - 1];
      assert fields == fields[..|fields| - 1] + [last];
      Defaults(fields[..|fields| - 1])[last.name := Or(last.defaultValue, Str(""))]
  }

  predicate DistinctNames(fields: seq<Field>)
  {
    forall i, j :: 0 <= i < j < |fields| ==> fields[i].name != fields[j].name
  }

  /** With distinct names, each field starts at its own `defaultValue`, or "" when that is falsy. */
  lemma {:induction false} DefaultsPerField(fields: seq<Field>, i: nat)
    requires DistinctNames(fields) && i < |fields|
    ensures Defaults(fields)[fields[i].name] == Or(fields[i].defaultValue, Str(""))
    decreases |fields|
  {
    var n := |fields| - 1;
    if i < n {
      var prefix := fields[..n];
      assert prefix[i] == fields[i];
      DefaultsPerField(prefix, i);
      assert fields[n].name != fields[i].name;
    }
  }

  /** The message for a missing required field: `${field.label || field.name} is required.` */
  function RequiredMessage(f: Field): (m: string)
    ensures f.caption != [] ==> m == f.caption + " is required."
    ensures f.caption == [] ==> m == f.name + " is required."
  {
    (if f.caption != [] then f.caption else f.name) + " is required."
  }

  predicate Missing(f: Field, data: FormData)
  {
    f.required && !Truthy(Lookup(data, f.name))
  }

  /** The first field, in field order, that is required and holds a falsy value. */
  function FirstMissing(fields: seq<Field>, data: FormData): (r: Option<nat>)
    ensures r.Some? ==>
      r.value < |fields| && Missing(fields[r.value], data)
      && forall j :: 0 <= j < r.value ==> !Missing(fields[j], data)
    ensures r.None? ==> forall j :: 0 <= j < |fields| ==> !Missing(fields[j], data)
  {
    if fields == [] then None
    else if Missing(fields[0], data) then Some(0)
    else
      match FirstMissing(fields[1..], data)
      case None => None
      case Some(k) => Some(k + 1)
  }

  class Form {
    var fields: seq<Field>
    var formData: FormData
    var validationError: string

    /** The dialog opened with `fields` and `initialData`, after its effect has run:
        `{ ...defaultState, ...initialData }`. */
    constructor(fs: seq<Field>, initialData: FormData)
      ensures fields == fs && validationError == []
      ensures formData == Defaults(fs) + initialData
    {
      fields := fs;
      validationError := [];
      var defaultState: FormData := map[];
      var i := 0;
      while i < |fs|
        invariant 0 <= i <= |fs|
        invariant defaultState == Defaults(fs[..i])
      {
        assert fs[..i + 1][..i] == fs[..i];
        defaultState := defaultState[fs[i].name := Or(fs[i].defaultValue, Str(""))];
        i := i + 1;
      }
      assert fs[..|fs|] == fs;
      formData := defaultState + initialData;
    }

    /** `handleChange`: a file input stores its first file, any other input its value;
        no other key changes. */
    method Change(name: string, value: Json, isFile: bool, firstFile: Json)
      modifies this
      ensures formData == old(formData)[name := if isFile then firstFile else value]
      ensures fields == old(fields) && validationError == old(validationError)
    {
      formData := formData[name := if isFile then firstFile else value];
    }

    /** `handleDropdownChange`. */
    method Choose(name: string, value: Json)
      modifies this
      ensures formData == old(formData)[name := value]
      ensures fields == old(fields) && validationError == old(validationError)
    {
      formData := formData[name := value];
    }

    /** `handleSubmit`: reports the first required field left empty and calls
        nothing; otherwise clears the error and hands the form data to `onSubmit`
        (the returned value). */
    method Submit() returns (sent: Option<FormData>)
      modifies this
      ensures fields == old(fields) && formData == old(formData)
      ensures FirstMissing(fields, formData).Some? ==>
        sent.None? && validationError == RequiredMessage(fields[FirstMissing(fields, formData).value])
      ensures FirstMissing(fields, formData).None? ==>
        sent == Some(formData) && validationError == []
    {
      var i := 0;
      while i < |fields|
        invariant 0 <= i <= |fields|
        invariant forall j :: 0 <= j < i ==> !Missing(fields[j], formData)
      {
        if fields[i].required && !Truthy(Lookup(formData, fields[i].name)) {
          validationError := RequiredMessage(fields[i]);
          FirstMissingIs(fields, formData, i);
          return None;
        }
        i := i + 1;
      }
      validationError := [];
      return Some(formData);
    }
  }

  /** The field a left-to-right scan stops at is the first missing one. */
  lemma {:induction false} FirstMissingIs(fields: seq<Field>, data: FormData, i: nat)
    requires i < |fields| && Missing(fields[i], data)
    requires forall j :: 0 <= j < i ==> !Missing(fields[j], data)
    ensures FirstMissing(fields, data) == Some(i)
  {
    if i > 0 {
      FirstMissingIs(fields[1..], data, i - 1);
    }
  }

  /** A change keeps every other key as it was. */
  lemma ChangeKeepsOthers(data: FormData, name: string, value: Json, other: string)
    requires other != name
    ensures Lookup(data[name := value], other) == Lookup(data, other)
    ensures Lookup(data[name := value], name) == value
  {
  }
}
