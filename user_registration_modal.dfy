/**
 * The self-service user registration form: nine fields, one of them the
 * chosen organization (a number read with `parseInt`, 0 meaning "none"),
 * a list of organizations fetched when the form opens, and a loading flag
 * raised while the submitted data is being handled.
 */
module UserRegistrationModal {
  import opened Wrappers
  import opened Text
  import opened Forms
  import Email

  datatype Field = Username | EmailAddress | FirstName | LastName | Password | ConfirmPassword
    | Organization | PhoneNumber | Position

  datatype Draft = Draft(
    username: string,
    email: string,
    firstName: string,
    lastName: string,
    password: string,
    confirmPassword: string,
    organization: JsNumber,
    phoneNumber: string,
    position: string)

  /** What `onSubmit` receives: the draft without `confirmPassword`. */
  datatype RegistrationPayload = RegistrationPayload(
    username: string,
    email: string,
    firstName: string,
    lastName: string,
    password: string,
    organization: JsNumber,
    phoneNumber: string,
    position: string)

  /** An entry of the organization list offered in the select. */
  datatype OrganizationOption = OrganizationOption(id: int, name: string)

  /** A field's current content: text, or the organization number. */
  datatype FieldValue = Text(text: string) | Number(number: JsNumber)

  const EmptyDraft: Draft := Draft("", "", "", "", "", "", Num(0), "", "")
  const UsernameRequired: string := "Username is required"
  const EmailRequired: string := "Email is required"
  const FirstNameRequired: string := "First name is required"
  const LastNameRequired: string := "Last name is required"
  const OrganizationRequired: string := "Please select an organization"

  function Value(d: Draft, f: Field): FieldValue {
    match f
    case Username => Text(d.username)
    case EmailAddress => Text(d.email)
    case FirstName => Text(d.firstName)
    case LastName => Text(d.lastName)
    case Password => Text(d.password)
    case ConfirmPassword => Text(d.confirmPassword)
    case Organization => Number(d.organization)
    case PhoneNumber => Text(d.phoneNumber)
    case Position => Text(d.position)
  }

  /** A text field set to the raw text; nothing else changes. */
  function WithText(d: Draft, f: Field, value: string): (r: Draft)
    requires f != Organization
    ensures Value(r, f) == Text(value)
    ensures forall g :: g != f ==> Value(r, g) == Value(d, g)
  {
    match f
    case Username => d.(username := value)
    case EmailAddress => d.(email := value)
    case FirstName => d.(firstName := value)
    case LastName => d.(lastName := value)
    case Password => d.(password := value)
    case ConfirmPassword => d.(confirmPassword := value)
    case PhoneNumber => d.(phoneNumber := value)
    case Position => d.(position := value)
  }

  /** The organization set to a number; nothing else changes. */
  function WithOrganization(d: Draft, n: JsNumber): (r: Draft)
    ensures Value(r, Organization) == Number(n)
    ensures forall g :: g != Organization ==> Value(r, g) == Value(d, g)
  {
    d.(organization := n)
  }

  /** `{ ...prev, [name]: name === 'organization' ? parseInt(value) : value }`:
      only the named field changes; the organization stores the parsed number. */
  function With(d: Draft, f: Field, value: string): (r: Draft)
    ensures Value(r, f) == if f == Organization then Number(ParseInt(value)) else Text(value)
    ensures forall g :: g != f ==> Value(r, g) == Value(d, g)
  {
    if f == Organization then WithOrganization(d, ParseInt(value)) else WithText(d, f, value)
  }

  /** `const { confirmPassword, ...submitData } = formData`. */
  function Payload(d: Draft): (p: RegistrationPayload)
    ensures p.username == d.username && p.email == d.email
    ensures p.firstName == d.firstName && p.lastName == d.lastName
    ensures p.password == d.password && p.organization == d.organization
    ensures p.phoneNumber == d.phoneNumber && p.position == d.position
  {
    RegistrationPayload(d.username, d.email, d.firstName, d.lastName, d.password,
      d.organization, d.phoneNumber, d.position)
  }

  /** The rule of each field; phone number and position are optional. */
  function FieldError(d: Draft, f: Field): string {
    match f
    case Username => RequiredError(d.username, UsernameRequired)
    case EmailAddress => EmailError(d.email, EmailRequired)
    case FirstName => RequiredError(d.firstName, FirstNameRequired)
    case LastName => RequiredError(d.lastName, LastNameRequired)
    case Password => PasswordError(d.password)
    case ConfirmPassword => ConfirmError(d.password, d.confirmPassword)
    case Organization => ChoiceError(d.organization, OrganizationRequired)
    case PhoneNumber => ""
    case Position => ""
  }

  /** The draft passes every rule. */
  predicate Acceptable(d: Draft) {
    !IsBlank(d.username) && !IsBlank(d.firstName) && !IsBlank(d.lastName) &&
    !IsBlank(d.email) && Email.LooksLikeEmail(d.email) &&
    !IsBlank(d.password) && Utf16Length(d.password) >= MinPasswordLength &&
    d.password == d.confirmPassword &&
    d.organization.Num? && d.organization.n != 0
  }

  /** The errors a submit records. No entry exactly when the three names are
      filled in, the email matches `\S+@\S+\.\S+`, the password is non-blank
      with at least 8 UTF-16 code units and equal to its confirmation, and a
      non-zero organization (not NaN) is chosen; each entry is its field's
      message; phone number and position are never rejected. */
  function Errors(d: Draft): (e: map<Field, string>)
    ensures e == map[] <==> Acceptable(d)
    ensures forall f :: f in e ==> e[f] != "" && e[f] == FieldError(d, f)
    ensures Username in e <==> IsBlank(d.username)
    ensures FirstName in e <==> IsBlank(d.firstName)
    ensures LastName in e <==> IsBlank(d.lastName)
    ensures EmailAddress in e <==> IsBlank(d.email) || !Email.LooksLikeEmail(d.email)
    ensures Password in e <==> IsBlank(d.password) || Utf16Length(d.password) < MinPasswordLength
    ensures ConfirmPassword in e <==> d.password != d.confirmPassword
    ensures Organization in e <==> d.organization == NaN || d.organization == Num(0)
    ensures PhoneNumber !in e && Position !in e
  {
    var e := map f: Field | FieldError(d, f) != "" :: FieldError(d, f);
    FieldErrorsMean(d);
    EmptyWhenNoCheckFails(e);
    e
  }

  /** What each field's message being present means. */
  lemma FieldErrorsMean(d: Draft)
    ensures FieldError(d, Username) != "" <==> IsBlank(d.username)
    ensures FieldError(d, EmailAddress) != "" <==> IsBlank(d.email) || !Email.LooksLikeEmail(d.email)
    ensures FieldError(d, FirstName) != "" <==> IsBlank(d.firstName)
    ensures FieldError(d, LastName) != "" <==> IsBlank(d.lastName)
    ensures FieldError(d, Password) != "" <==> IsBlank(d.password) || Utf16Length(d.password) < MinPasswordLength
    ensures FieldError(d, ConfirmPassword) != "" <==> d.password != d.confirmPassword
    ensures FieldError(d, Organization) != "" <==> d.organization == NaN || d.organization == Num(0)
    ensures FieldError(d, PhoneNumber) == "" && FieldError(d, Position) == ""
  {
  }

  /** An error map without entries for the two optional fields is empty
      exactly when none of the seven checked fields has an entry. */
  lemma EmptyWhenNoCheckFails(e: map<Field, string>)
    requires PhoneNumber !in e && Position !in e
    ensures e == map[] <==>
      Username !in e && EmailAddress !in e && FirstName !in e && LastName !in e &&
      Password !in e && ConfirmPassword !in e && Organization !in e
  {
    if Username !in e && EmailAddress !in e && FirstName !in e && LastName !in e &&
       Password !in e && ConfirmPassword !in e && Organization !in e {
      forall f | f in e ensures false {
        match f
        case Username =>
        case EmailAddress =>
        case FirstName =>
        case LastName =>
        case Password =>
        case ConfirmPassword =>
        case Organization =>
        case PhoneNumber =>
        case Position =>
      }
      assert e.Keys == {};
    }
  }

  /** The position of a field's check in `handleSubmit`; the optional fields
      have none and come last. */
  function Rank(f: Field): nat {
    match f
    case Username => 0
    case EmailAddress => 1
    case FirstName => 2
    case LastName => 3
    case Password => 4
    case ConfirmPassword => 5
    case Organization => 6
    case PhoneNumber => 7
    case Position => 8
  }

  /** The errors recorded by the first `k` checks. */
  function ErrorsBefore(d: Draft, k: nat): map<Field, string> {
    map f | Rank(f) < k && FieldError(d, f) != "" :: FieldError(d, f)
  }

  /** Running check `f`, which is check number `Rank(f)`, extends the errors
      of the checks before it by `f`'s message when it has one. */
  lemma AddCheck(d: Draft, before: map<Field, string>, f: Field, after: map<Field, string>)
    requires before == ErrorsBefore(d, Rank(f))
    requires after == Record(before, f, FieldError(d, f))
    ensures after == ErrorsBefore(d, Rank(f) + 1)
  {
  }

  /** After the seven checks every error is recorded: the two optional
      fields have none. */
  lemma AllChecked(d: Draft)
    ensures ErrorsBefore(d, Rank(Organization) + 1) == Errors(d)
  {
  }

  /** The validation half of `handleSubmit`: the checks run in turn, each adding
      its field's message to `newErrors`; the map built is the error map, and it
      is empty exactly when the draft is acceptable. */
  method CollectErrors(d: Draft) returns (newErrors: map<Field, string>)
    ensures newErrors == Errors(d)
    ensures |newErrors| > 0 <==> !Acceptable(d)
  {
    newErrors := map[];
    ghost var before := newErrors;
    newErrors := CheckRequired(newErrors, Username, d.username, UsernameRequired);
    AddCheck(d, before, Username, newErrors);
    before := newErrors;
    newErrors := CheckEmail(newErrors, EmailAddress, d.email, EmailRequired);
    AddCheck(d, before, EmailAddress, newErrors);
    before := newErrors;
    newErrors := CheckRequired(newErrors, FirstName, d.firstName, FirstNameRequired);
    AddCheck(d, before, FirstName, newErrors);
    before := newErrors;
    newErrors := CheckRequired(newErrors, LastName, d.lastName, LastNameRequired);
    AddCheck(d, before, LastName, newErrors);
    before := newErrors;
    newErrors := CheckPassword(newErrors, Password, d.password);
    AddCheck(d, before, Password, newErrors);
    before := newErrors;
    newErrors := CheckConfirm(newErrors, ConfirmPassword, d.password, d.confirmPassword);
    AddCheck(d, before, ConfirmPassword, newErrors);
    before := newErrors;
    newErrors := CheckChoice(newErrors, Organization, d.organization, OrganizationRequired);
    AddCheck(d, before, Organization, newErrors);
    AllChecked(d);
    NonEmptyMap(newErrors);
  }

  class UserRegistrationForm {
    var formData: Draft
    var errors: map<Field, string>
    var organizations: seq<OrganizationOption>
    var loading: bool

    /** Every text starts empty and the organization at 0; no errors, no
        organizations listed, not loading. */
    constructor ()
      ensures formData == EmptyDraft && errors == map[]
      ensures organizations == [] && !loading
    {
      formData := Draft("", "", "", "", "", "", Num(0), "", "");
      errors := map[];
      organizations := [];
      loading := false;
    }

    /** The effect run when `isOpen` changes: an open form asks for the
        organization list (`fetched` is the reply, `None` when the request
        fails) and keeps the previous list on failure; a closed form does
        nothing. */
    method Opened(isOpen: bool, fetched: Option<seq<OrganizationOption>>)
      modifies this
      ensures isOpen && fetched.Some? ==> organizations == fetched.value
      ensures !(isOpen && fetched.Some?) ==> organizations == old(organizations)
      ensures formData == old(formData) && errors == old(errors) && loading == old(loading)
    {
      if isOpen && fetched.Some? {
        organizations := fetched.value;
      }
    }

    /** `handleSubmit`. Any error replaces the error map by exactly the new
        errors, submits nothing and leaves `loading` alone. Otherwise the
        payload, without the confirmation, is handed to `onSubmit`;
        `onSubmitThrows` says whether that call threw. Only when it did not
        are the fields and errors reset; either way `loading` ends false. */
    method Submit(onSubmitThrows: bool) returns (submitted: Option<RegistrationPayload>)
      modifies this
      ensures organizations == old(organizations)
      ensures !Acceptable(old(formData)) ==>
        submitted == None && formData == old(formData) && errors == Errors(old(formData))
        && loading == old(loading)
      ensures Acceptable(old(formData)) ==>
        submitted == Some(Payload(old(formData))) && !loading
      ensures Acceptable(old(formData)) && !onSubmitThrows ==>
        formData == EmptyDraft && errors == map[]
      ensures Acceptable(old(formData)) && onSubmitThrows ==>
        formData == old(formData) && errors == old(errors)
    {
      var newErrors := CollectErrors(formData);
      if |newErrors| > 0 {
        errors := newErrors;
        return None;
      }
      loading := true;
      submitted := Some(Payload(formData));
      if !onSubmitThrows {
        formData := Draft("", "", "", "", "", "", Num(0), "", "");
        errors := map[];
      }
      loading := false;
    }

    /** `handleChange`: only the named field changes (the organization through
        `parseInt`), and only its error is blanked. */
    method Change(f: Field, value: string)
      modifies this
      ensures formData == With(old(formData), f, value)
      ensures errors == ClearError(old(errors), f)
      ensures organizations == old(organizations) && loading == old(loading)
    {
      formData := With(formData, f, value);
      errors := ClearError(errors, f);
    }
  }

  /** The form as it first appears fails on every required field: the
      initial organization 0 is the "none selected" value, and the empty
      password equals its empty confirmation, so that one rule alone passes. */
  lemma EmptyFormErrors()
    ensures Errors(EmptyDraft).Keys == {Username, EmailAddress, FirstName, LastName, Password, Organization}
  {
    var e := Errors(EmptyDraft);
    assert IsBlank("");
    assert e.Keys == {Username, EmailAddress, FirstName, LastName, Password, Organization};
  }
}
