/**
 * The organization create/edit form: a draft with a name and an address,
 * a map of per-field errors, submission and per-field editing.
 */
module OrganizationModal {
  import opened Wrappers
  import opened Text
  import opened Forms

  datatype Field = Name | Address

  /** The form's draft; also the payload handed to `onSubmit`. */
  datatype Draft = Draft(name: string, address: string)

  const EmptyDraft: Draft := Draft("", "")
  const NameRequired: string := "Organization name is required"
  const AddressRequired: string := "Address is required"

  function Value(d: Draft, f: Field): string {
    match f
    case Name => d.name
    case Address => d.address
  }

  /** `{ ...prev, [name]: value }`: only the named field takes the new text. */
  function With(d: Draft, f: Field, value: string): (r: Draft)
    ensures Value(r, f) == value
    ensures forall g :: g != f ==> Value(r, g) == Value(d, g)
  {
    match f
    case Name => d.(name := value)
    case Address => d.(address := value)
  }

  /** Each field is required; its message names the field. */
  function FieldError(d: Draft, f: Field): string {
    match f
    case Name => RequiredError(d.name, NameRequired)
    case Address => RequiredError(d.address, AddressRequired)
  }

  /** Both fields have text. */
  predicate Acceptable(d: Draft) {
    !IsBlank(d.name) && !IsBlank(d.address)
  }

  /** The errors a submit records: an entry for exactly the blank fields, each a
      non-empty message, and no entry at all exactly when both fields have text. */
  function Errors(d: Draft): (e: map<Field, string>)
    ensures forall f :: f in e <==> IsBlank(Value(d, f))
    ensures forall f :: f in e ==> e[f] != "" && e[f] == FieldError(d, f)
    ensures e == map[] <==> Acceptable(d)
  {
    var e := map f | f in {Name, Address} && FieldError(d, f) != "" :: FieldError(d, f);
    assert Name in e <==> IsBlank(d.name);
    assert Address in e <==> IsBlank(d.address);
    e
  }

  /** The position of a field's check in `handleSubmit`. */
  function Rank(f: Field): nat {
    match f
    case Name => 0
    case Address => 1
  }

  /** The errors recorded by the first `k` checks. */
  function ErrorsBefore(d: Draft, k: nat): map<Field, string> {
    map f | Rank(f) < k && FieldError(d, f) != "" :: FieldError(d, f)
  }

  /** Running check `f`, which is check number `Rank(f)`, extends the errors
      of the checks before it by `f`'s message when it has one. */
  lemma AddCheck(d: Draft, before: map<Field, string>, f: Field, after: map<Field, string>)
    requires before == ErrorsBefore(d, Rank(f))
    requires after == Record(before, f, FieldError(d, f))
    ensures after == ErrorsBefore(d, Rank(f) + 1)
  {
  }

  /** After the last check every error is recorded. */
  lemma AllChecked(d: Draft)
    ensures ErrorsBefore(d, Rank(Address) + 1) == Errors(d)
  {
  }

  /** The validation half of `handleSubmit`: each blank field adds its message
      to `newErrors` in turn; the map built is the error map, and it is empty
      exactly when both fields have text. */
  method CollectErrors(d: Draft) returns (newErrors: map<Field, string>)
    ensures newErrors == Errors(d)
    ensures |newErrors| > 0 <==> !Acceptable(d)
  {
    newErrors := map[];
    ghost var before := newErrors;
    newErrors := CheckRequired(newErrors, Name, d.name, NameRequired);
    AddCheck(d, before, Name, newErrors);
    before := newErrors;
    newErrors := CheckRequired(newErrors, Address, d.address, AddressRequired);
    AddCheck(d, before, Address, newErrors);
    AllChecked(d);
    NonEmptyMap(newErrors);
  }

  class OrganizationForm {
    var formData: Draft
    var errors: map<Field, string>

    /** The draft starts as the edited organization's name and address, or empty
        when creating; there are no errors. */
    constructor (organization: Option<Draft>)
      ensures formData == if organization.Some? then organization.value else EmptyDraft
      ensures errors == map[]
    {
      formData := if organization.Some? then organization.value else EmptyDraft;
      errors := map[];
    }

    /** `handleSubmit`: with a blank field, records the errors and submits
        nothing, keeping the draft; otherwise hands over the draft as typed
        (untrimmed), then empties the draft and the errors. */
    method Submit() returns (submitted: Option<Draft>)
      modifies this
      ensures !Acceptable(old(formData)) ==>
        submitted == None && formData == old(formData) && errors == Errors(old(formData))
      ensures Acceptable(old(formData)) ==>
        submitted == Some(old(formData)) && formData == EmptyDraft && errors == map[]
    {
      var newErrors := CollectErrors(formData);
      if |newErrors| > 0 {
        errors := newErrors;
        return None;
      }
      submitted := Some(formData);
      formData := Draft("", "");
      errors := map[];
    }

    /** `handleChange`: the named field takes the new text and only that field's
        error is blanked. */
    method Change(f: Field, value: string)
      modifies this
      ensures formData == With(old(formData), f, value)
      ensures errors == ClearError(old(errors), f)
    {
      formData := With(formData, f, value);
      errors := ClearError(errors, f);
    }
  }
}
