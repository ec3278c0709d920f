/**
 * The organization signup form: an organization's name, email, phone number
 * and an administrator password entered twice. The confirmation is checked
 * and then dropped from the payload.
 */
module OrganizationSignupModal {
  import opened Wrappers
  import opened Text
  import opened Forms
  import Email

  datatype Field = OrganizationName | OrganizationEmail | Password | ConfirmPassword | PhoneNumber

  datatype Draft = Draft(
    organizationName: string,
    organizationEmail: string,
    password: string,
    confirmPassword: string,
    phoneNumber: string)

  /** What `onSubmit` receives: the draft without `confirmPassword`. */
  datatype SignupPayload = SignupPayload(
    organizationName: string,
    organizationEmail: string,
    password: string,
    phoneNumber: string)

  const EmptyDraft: Draft := Draft("", "", "", "", "")
  const NameRequired: string := "Organization name is required"
  const EmailRequired: string := "Organization email is required"
  const PhoneRequired: string := "Phone number is required"

  function Value(d: Draft, f: Field): string {
    match f
    case OrganizationName => d.organizationName
    case OrganizationEmail => d.organizationEmail
    case Password => d.password
    case ConfirmPassword => d.confirmPassword
    case PhoneNumber => d.phoneNumber
  }

  /** `{ ...prev, [name]: value }`: only the named field takes the new text. */
  function With(d: Draft, f: Field, value: string): (r: Draft)
    ensures Value(r, f) == value
    ensures forall g :: g != f ==> Value(r, g) == Value(d, g)
  {
    match f
    case OrganizationName => d.(organizationName := value)
    case OrganizationEmail => d.(organizationEmail := value)
    case Password => d.(password := value)
    case ConfirmPassword => d.(confirmPassword := value)
    case PhoneNumber => d.(phoneNumber := value)
  }

  /** `const { confirmPassword, ...submitData } = formData`. */
  function Payload(d: Draft): (p: SignupPayload)
    ensures p.organizationName == d.organizationName && p.organizationEmail == d.organizationEmail
    ensures p.password == d.password && p.phoneNumber == d.phoneNumber
  {
    SignupPayload(d.organizationName, d.organizationEmail, d.password, d.phoneNumber)
  }

  /** The rule of each field. */
  function FieldError(d: Draft, f: Field): string {
    match f
    case OrganizationName => RequiredError(d.organizationName, NameRequired)
    case OrganizationEmail => EmailError(d.organizationEmail, EmailRequired)
    case Password => PasswordError(d.password)
    case ConfirmPassword => ConfirmError(d.password, d.confirmPassword)
    case PhoneNumber => RequiredError(d.phoneNumber, PhoneRequired)
  }

  /** The draft passes every rule. */
  predicate Acceptable(d: Draft) {
    !IsBlank(d.organizationName) &&
    !IsBlank(d.organizationEmail) && Email.LooksLikeEmail(d.organizationEmail) &&
    !IsBlank(d.password) && Utf16Length(d.password) >= MinPasswordLength &&
    d.password == d.confirmPassword &&
    !IsBlank(d.phoneNumber)
  }

  /** The errors a submit records. No entry exactly when name and phone have
      text, the email matches `\S+@\S+\.\S+`, the password is non-blank with at
      least 8 UTF-16 code units, and the confirmation equals it; each entry is
      its field's message; the confirmation is flagged exactly when the two
      texts differ, whatever the password's own state. */
  function Errors(d: Draft): (e: map<Field, string>)
    ensures e == map[] <==> Acceptable(d)
    ensures forall f :: f in e ==> e[f] != "" && e[f] == FieldError(d, f)
    ensures OrganizationName in e <==> IsBlank(d.organizationName)
    ensures PhoneNumber in e <==> IsBlank(d.phoneNumber)
    ensures OrganizationEmail in e <==> IsBlank(d.organizationEmail) || !Email.MatchesPattern(d.organizationEmail)
    ensures OrganizationEmail in e && IsBlank(d.organizationEmail) ==> e[OrganizationEmail] == EmailRequired
    ensures Password in e <==> IsBlank(d.password) || Utf16Length(d.password) < MinPasswordLength
    ensures Password in e && !IsBlank(d.password) ==> e[Password] == PasswordTooShort
    ensures ConfirmPassword in e <==> d.password != d.confirmPassword
  {
    var e := map f: Field | FieldError(d, f) != "" :: FieldError(d, f);
    FieldErrorsMean(d);
    EmptyWhenNoCheckFails(e);
    e
  }

  /** What each field's message being present means, and which message a
      blank email and a short password get. */
  lemma FieldErrorsMean(d: Draft)
    ensures FieldError(d, OrganizationName) != "" <==> IsBlank(d.organizationName)
    ensures FieldError(d, OrganizationEmail) != "" <==>
      IsBlank(d.organizationEmail) || !Email.LooksLikeEmail(d.organizationEmail)
    ensures IsBlank(d.organizationEmail) ==> FieldError(d, OrganizationEmail) == EmailRequired
    ensures FieldError(d, Password) != "" <==> IsBlank(d.password) || Utf16Length(d.password) < MinPasswordLength
    ensures FieldError(d, Password) != "" && !IsBlank(d.password) ==> FieldError(d, Password) == PasswordTooShort
    ensures FieldError(d, ConfirmPassword) != "" <==> d.password != d.confirmPassword
    ensures FieldError(d, PhoneNumber) != "" <==> IsBlank(d.phoneNumber)
  {
  }

  /** An error map is empty exactly when none of the five fields has an entry. */
  lemma EmptyWhenNoCheckFails(e: map<Field, string>)
    ensures e == map[] <==>
      OrganizationName !in e && OrganizationEmail !in e && Password !in e &&
      ConfirmPassword !in e && PhoneNumber !in e
  {
    if OrganizationName !in e && OrganizationEmail !in e && Password !in e &&
       ConfirmPassword !in e && PhoneNumber !in e {
      forall f | f in e ensures false {
        match f
        case OrganizationName =>
        case OrganizationEmail =>
        case Password =>
        case ConfirmPassword =>
        case PhoneNumber =>
      }
      assert e.Keys == {};
    }
  }

  /** The position of a field's check in `handleSubmit`. */
  function Rank(f: Field): nat {
    match f
    case OrganizationName => 0
    case OrganizationEmail => 1
    case Password => 2
    case ConfirmPassword => 3
    case PhoneNumber => 4
  }

  /** The errors recorded by the first `k` checks. */
  function ErrorsBefore(d: Draft, k: nat): map<Field, string> {
    map f | Rank(f) < k && FieldError(d, f) != "" :: FieldError(d, f)
  }

  /** Running check `f`, which is check number `Rank(f)`, extends the errors
      of the checks before it by `f`'s message when it has one. */
  lemma AddCheck(d: Draft, before: map<Field, string>, f: Field, after: map<Field, string>)
    requires before == ErrorsBefore(d, Rank(f))
    requires after == Record(before, f, FieldError(d, f))
    ensures after == ErrorsBefore(d, Rank(f) + 1)
  {
  }

  /** After the last check every error is recorded. */
  lemma AllChecked(d: Draft)
    ensures ErrorsBefore(d, Rank(PhoneNumber) + 1) == Errors(d)
  {
  }

  /** The validation half of `handleSubmit`: the checks run in turn, each adding
      its field's message to `newErrors`; the map built is the error map, and it
      is empty exactly when the draft is acceptable. */
  method CollectErrors(d: Draft) returns (newErrors: map<Field, string>)
    ensures newErrors == Errors(d)
    ensures |newErrors| > 0 <==> !Acceptable(d)
  {
    newErrors := map[];
    ghost var before := newErrors;
    newErrors := CheckRequired(newErrors, OrganizationName, d.organizationName, NameRequired);
    AddCheck(d, before, OrganizationName, newErrors);
    before := newErrors;
    newErrors := CheckEmail(newErrors, OrganizationEmail, d.organizationEmail, EmailRequired);
    AddCheck(d, before, OrganizationEmail, newErrors);
    before := newErrors;
    newErrors := CheckPassword(newErrors, Password, d.password);
    AddCheck(d, before, Password, newErrors);
    before := newErrors;
    newErrors := CheckConfirm(newErrors, ConfirmPassword, d.password, d.confirmPassword);
    AddCheck(d, before, ConfirmPassword, newErrors);
    before := newErrors;
    newErrors := CheckRequired(newErrors, PhoneNumber, d.phoneNumber, PhoneRequired);
    AddCheck(d, before, PhoneNumber, newErrors);
    AllChecked(d);
    NonEmptyMap(newErrors);
  }

  class OrganizationSignupForm {
    var formData: Draft
    var errors: map<Field, string>

    /** Every field starts empty, with no errors. */
    constructor ()
      ensures formData == EmptyDraft && errors == map[]
    {
      formData := Draft("", "", "", "", "");
      errors := map[];
    }

    /** `handleSubmit`: any error replaces the error map by exactly the new
        errors and submits nothing; otherwise the payload, which carries the
        password but not its confirmation, is handed over and all five fields
        are emptied. */
    method Submit() returns (submitted: Option<SignupPayload>)
      modifies this
      ensures !Acceptable(old(formData)) ==>
        submitted == None && formData == old(formData) && errors == Errors(old(formData))
      ensures Acceptable(old(formData)) ==>
        submitted == Some(Payload(old(formData))) && formData == EmptyDraft && errors == map[]
    {
      var newErrors := CollectErrors(formData);
      if |newErrors| > 0 {
        errors := newErrors;
        return None;
      }
      submitted := Some(Payload(formData));
      formData := Draft("", "", "", "", "");
      errors := map[];
    }

    /** `handleChange`: the named field takes the new text and only that
        field's error is blanked. */
    method Change(f: Field, value: string)
      modifies this
      ensures formData == With(old(formData), f, value)
      ensures errors == ClearError(old(errors), f)
    {
      formData := With(formData, f, value);
      errors := ClearError(errors, f);
    }
  }
}
