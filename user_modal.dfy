/**
 * The user create/edit form of the management view: seven fields, one of
 * them the selected organization (a number read with `parseInt`).
 */
module UserModal {
  import opened Wrappers
  import opened Text
  import opened Forms
  import Email

  datatype Field = Username | EmailAddress | FirstName | LastName | Organization | Position | PhoneNumber

  /** The form's draft; also the payload handed to `onSubmit`. */
  datatype Draft = Draft(
    username: string,
    email: string,
    firstName: string,
    lastName: string,
    organization: JsNumber,
    position: string,
    phoneNumber: string)

  /** A field's current content: text, or the organization number. */
  datatype FieldValue = Text(text: string) | Number(number: JsNumber)

  /** An entry of the organization list the form receives. */
  datatype OrganizationOption = OrganizationOption(id: int, name: string)

  /** The user being edited, as the management view lists it. */
  datatype EditedUser = EditedUser(
    username: string,
    email: string,
    firstName: string,
    lastName: string,
    organization: int,
    position: Option<string>,
    phoneNumber: Option<string>)

  const UsernameRequired: string := "Username is required"
  const FirstNameRequired: string := "First name is required"
  const LastNameRequired: string := "Last name is required"
  const EmailRequired: string := "Email is required"
  const OrganizationRequired: string := "Please select an organization"

  /** `organizations[0]?.id || 0`. */
  function FirstOrganizationOrZero(organizations: seq<OrganizationOption>): int {
    if |organizations| > 0 then organizations[0].id else 0
  }

  /** `value || ''` for an optional text. */
  function OrEmpty(s: Option<string>): string {
    if s.Some? then s.value else ""
  }

  /** The draft a successful submit leaves behind. */
  function ResetDraft(organizations: seq<OrganizationOption>): Draft {
    Draft("", "", "", "", Num(FirstOrganizationOrZero(organizations)), "", "")
  }

  function Value(d: Draft, f: Field): FieldValue {
    match f
    case Username => Text(d.username)
    case EmailAddress => Text(d.email)
    case FirstName => Text(d.firstName)
    case LastName => Text(d.lastName)
    case Organization => Number(d.organization)
    case Position => Text(d.position)
    case PhoneNumber => Text(d.phoneNumber)
  }

  /** A text field set to the raw text; nothing else changes. */
  function WithText(d: Draft, f: Field, value: string): (r: Draft)
    requires f != Organization
    ensures Value(r, f) == Text(value)
    ensures forall g :: g != f ==> Value(r, g) == Value(d, g)
  {
    match f
    case Username => d.(username := value)
    case EmailAddress => d.(email := value)
    case FirstName => d.(firstName := value)
    case LastName => d.(lastName := value)
    case Position => d.(position := value)
    case PhoneNumber => d.(phoneNumber := value)
  }

  /** The organization set to a number; nothing else changes. */
  function WithOrganization(d: Draft, n: JsNumber): (r: Draft)
    ensures Value(r, Organization) == Number(n)
    ensures forall g :: g != Organization ==> Value(r, g) == Value(d, g)
  {
    d.(organization := n)
  }

  /** `{ ...prev, [name]: name === 'organization' ? parseInt(value) : value }`:
      only the named field changes; the organization stores the parsed number,
      every other field the raw text. */
  function With(d: Draft, f: Field, value: string): (r: Draft)
    ensures Value(r, f) == if f == Organization then Number(ParseInt(value)) else Text(value)
    ensures forall g :: g != f ==> Value(r, g) == Value(d, g)
  {
    if f == Organization then WithOrganization(d, ParseInt(value)) else WithText(d, f, value)
  }

  /** The rule of each field; position and phone number are optional. */
  function FieldError(d: Draft, f: Field): string {
    match f
    case Username => RequiredError(d.username, UsernameRequired)
    case FirstName => RequiredError(d.firstName, FirstNameRequired)
    case LastName => RequiredError(d.lastName, LastNameRequired)
    case EmailAddress => EmailError(d.email, EmailRequired)
    case Organization => ChoiceError(d.organization, OrganizationRequired)
    case Position => ""
    case PhoneNumber => ""
  }

  /** The draft passes every rule. */
  predicate Acceptable(d: Draft) {
    !IsBlank(d.username) && !IsBlank(d.firstName) && !IsBlank(d.lastName) &&
    !IsBlank(d.email) && Email.LooksLikeEmail(d.email) &&
    d.organization.Num? && d.organization.n != 0
  }

  /** The errors a submit records. No entry exactly when the names are filled in,
      the email matches `\S+@\S+\.\S+`, and a non-zero organization (not NaN) is
      chosen; each entry is its field's message, so a blank email gets the
      "required" message and never the format one; position and phone number
      are never rejected. */
  function Errors(d: Draft): (e: map<Field, string>)
    ensures e == map[] <==> Acceptable(d)
    ensures forall f :: f in e ==> e[f] != "" && e[f] == FieldError(d, f)
    ensures Username in e <==> IsBlank(d.username)
    ensures FirstName in e <==> IsBlank(d.firstName)
    ensures LastName in e <==> IsBlank(d.lastName)
    ensures EmailAddress in e <==> IsBlank(d.email) || !Email.LooksLikeEmail(d.email)
    ensures EmailAddress in e && IsBlank(d.email) ==> e[EmailAddress] == EmailRequired
    ensures EmailAddress in e && !IsBlank(d.email) ==> e[EmailAddress] == InvalidEmail && !Email.MatchesPattern(d.email)
    ensures Organization in e <==> d.organization == NaN || d.organization == Num(0)
    ensures Position !in e && PhoneNumber !in e
  {
    var e := map f: Field | FieldError(d, f) != "" :: FieldError(d, f);
    FieldErrorsMean(d);
    EmptyWhenNoCheckFails(e);
    e
  }

  /** What each field's message being present means, and which message the
      email gets. */
  lemma FieldErrorsMean(d: Draft)
    ensures FieldError(d, Username) != "" <==> IsBlank(d.username)
    ensures FieldError(d, FirstName) != "" <==> IsBlank(d.firstName)
    ensures FieldError(d, LastName) != "" <==> IsBlank(d.lastName)
    ensures FieldError(d, EmailAddress) != "" <==> IsBlank(d.email) || !Email.LooksLikeEmail(d.email)
    ensures IsBlank(d.email) ==> FieldError(d, EmailAddress) == EmailRequired
    ensures FieldError(d, EmailAddress) != "" && !IsBlank(d.email) ==>
      FieldError(d, EmailAddress) == InvalidEmail && !Email.MatchesPattern(d.email)
    ensures FieldError(d, Organization) != "" <==> d.organization == NaN || d.organization == Num(0)
    ensures FieldError(d, Position) == "" && FieldError(d, PhoneNumber) == ""
  {
  }

  /** An error map without entries for the two optional fields is empty
      exactly when none of the five checked fields has an entry. */
  lemma EmptyWhenNoCheckFails(e: map<Field, string>)
    requires Position !in e && PhoneNumber !in e
    ensures e == map[] <==>
      Username !in e && FirstName !in e && LastName !in e && EmailAddress !in e && Organization !in e
  {
    if Username !in e && FirstName !in e && LastName !in e && EmailAddress !in e && Organization !in e {
      forall f | f in e ensures false {
        match f
        case Username =>
        case FirstName =>
        case LastName =>
        case EmailAddress =>
        case Organization =>
        case Position =>
        case PhoneNumber =>
      }
      assert e.Keys == {};
    }
  }

  /** The position of a field's check in `handleSubmit`; the optional fields
      have none and come last. */
  function Rank(f: Field): nat {
    match f
    case Username => 0
    case FirstName => 1
    case LastName => 2
    case EmailAddress => 3
    case Organization => 4
    case Position => 5
    case PhoneNumber => 6
  }

  /** The errors recorded by the first `k` checks. */
  function ErrorsBefore(d: Draft, k: nat): map<Field, string> {
    map f | Rank(f) < k && FieldError(d, f) != "" :: FieldError(d, f)
  }

  /** Running check `f`, which is check number `Rank(f)`, extends the errors
      of the checks before it by `f`'s message when it has one. */
  lemma AddCheck(d: Draft, before: map<Field, string>, f: Field, after: map<Field, string>)
    requires before == ErrorsBefore(d, Rank(f))
    requires after == Record(before, f, FieldError(d, f))
    ensures after == ErrorsBefore(d, Rank(f) + 1)
  {
  }

  /** After the last check every error is recorded. */
  lemma AllChecked(d: Draft)
    ensures ErrorsBefore(d, Rank(Organization) + 1) == Errors(d)
  {
  }

  /** The validation half of `handleSubmit`: the checks run in turn, each adding
      its field's message to `newErrors`; the map built is the error map, and it
      is empty exactly when the draft is acceptable. */
  method CollectErrors(d: Draft) returns (newErrors: map<Field, string>)
    ensures newErrors == Errors(d)
    ensures |newErrors| > 0 <==> !Acceptable(d)
  {
    newErrors := map[];
    ghost var before := newErrors;
    newErrors := CheckRequired(newErrors, Username, d.username, UsernameRequired);
    AddCheck(d, before, Username, newErrors);
    before := newErrors;
    newErrors := CheckRequired(newErrors, FirstName, d.firstName, FirstNameRequired);
    AddCheck(d, before, FirstName, newErrors);
    before := newErrors;
    newErrors := CheckRequired(newErrors, LastName, d.lastName, LastNameRequired);
    AddCheck(d, before, LastName, newErrors);
    before := newErrors;
    newErrors := CheckEmail(newErrors, EmailAddress, d.email, EmailRequired);
    AddCheck(d, before, EmailAddress, newErrors);
    before := newErrors;
    newErrors := CheckChoice(newErrors, Organization, d.organization, OrganizationRequired);
    AddCheck(d, before, Organization, newErrors);
    AllChecked(d);
    NonEmptyMap(newErrors);
  }

  class UserForm {
    var formData: Draft
    var errors: map<Field, string>

    /** Each text starts as the edited user's value or ''; the organization as
        the user's if non-zero, else the first listed organization's id, else 0. */
    constructor (user: Option<EditedUser>, organizations: seq<OrganizationOption>)
      ensures user.None? ==> formData == ResetDraft(organizations)
      ensures user.Some? ==>
        var u := user.value;
        formData == Draft(u.username, u.email, u.firstName, u.lastName,
          Num(if u.organization != 0 then u.organization else FirstOrganizationOrZero(organizations)),
          OrEmpty(u.position), OrEmpty(u.phoneNumber))
      ensures errors == map[]
    {
      if user.Some? {
        var u := user.value;
        var organization := if u.organization != 0 then u.organization else FirstOrganizationOrZero(organizations);
        formData := Draft(u.username, u.email, u.firstName, u.lastName, Num(organization),
          OrEmpty(u.position), OrEmpty(u.phoneNumber));
      } else {
        formData := Draft("", "", "", "", Num(FirstOrganizationOrZero(organizations)), "", "");
      }
      errors := map[];
    }

    /** `handleSubmit`: any error replaces the error map by exactly the new errors
        and submits nothing; otherwise the whole draft, position and phone number
        included, is handed over and the form resets to empty texts and the
        first listed organization. */
    method Submit(organizations: seq<OrganizationOption>) returns (submitted: Option<Draft>)
      modifies this
      ensures !Acceptable(old(formData)) ==>
        submitted == None && formData == old(formData) && errors == Errors(old(formData))
      ensures Acceptable(old(formData)) ==>
        submitted == Some(old(formData)) && formData == ResetDraft(organizations) && errors == map[]
    {
      var newErrors := CollectErrors(formData);
      if |newErrors| > 0 {
        errors := newErrors;
        return None;
      }
      submitted := Some(formData);
      formData := Draft("", "", "", "", Num(FirstOrganizationOrZero(organizations)), "", "");
      errors := map[];
    }

    /** `handleChange`: only the named field changes (the organization through
        `parseInt`), and only its error is blanked. */
    method Change(f: Field, value: string)
      modifies this
      ensures formData == With(old(formData), f, value)
      ensures errors == ClearError(old(errors), f)
    {
      formData := With(formData, f, value);
      errors := ClearError(errors, f);
    }
  }

  /** Choosing an organization from the select stores its id: option values
      are ids rendered in decimal, and `parseInt` reads them back; the
      placeholder option "0" leaves the organization unselected. */
  lemma SelectingAnOrganization(d: Draft, id: int)
    ensures With(d, Organization, IntToString(id)).organization == Num(id)
    ensures Organization in Errors(With(d, Organization, "0"))
  {
    ParseIntOfIntToString(id);
    ParseIntOfIntToString(0);
  }
}
