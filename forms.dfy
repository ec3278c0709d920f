/**
 * Rules shared by the modal forms: the per-field error clearing of
 * `handleChange`, and the email and password checks of `handleSubmit`.
 */
module Forms {
  import opened Text
  import Email

  const InvalidEmail: string := "Please enter a valid email address"
  const PasswordRequired: string := "Password is required"
  const PasswordTooShort: string := "Password must be at least 8 characters long"
  const PasswordsDiffer: string := "Passwords do not match"
  const MinPasswordLength: nat := 8

  /** `if (errors[name]) setErrors(prev => ({ ...prev, [name]: '' }))`: the edited
      field's error becomes the empty (falsy) message when it had one, and every
      other entry, as well as the set of keys, stays as it was. */
  function ClearError<F>(errors: map<F, string>, f: F): (r: map<F, string>)
    ensures r.Keys == errors.Keys
    ensures f in r ==> r[f] == ""
    ensures forall g :: g in errors && g != f ==> r[g] == errors[g]
  {
    if f in errors && errors[f] != "" then errors[f := ""] else errors
  }

  /** `Object.keys(m).length > 0` holds exactly for a non-empty map. */
  lemma NonEmptyMap<F>(m: map<F, string>)
    ensures |m| > 0 <==> m != map[]
  {
    if m != map[] {
      var f :| f in m;
      assert f in m.Keys;
    }
  }

  /** `if (!value.trim()) message`: a required text's message when blank. */
  function RequiredError(value: string, message: string): (r: string)
    requires message != ""
    ensures r == "" <==> !IsBlank(value)
    ensures r != "" ==> r == message
  {
    if IsBlank(value) then message else ""
  }

  /** `!n || n === 0`: a selection's message when nothing (0 or NaN) is chosen. */
  function ChoiceError(n: JsNumber, message: string): (r: string)
    requires message != ""
    ensures r == "" <==> n.Num? && n.n != 0
    ensures r != "" ==> r == message
  {
    if !n.Truthy() then message else ""
  }

  /** The email field's message: its own "required" message when blank, the
      format message when the text has no match of `\S+@\S+\.\S+`, and none
      (the empty string) otherwise. A blank email gets only "required". */
  function EmailError(value: string, required: string): (r: string)
    requires required != ""
    ensures r == "" <==> !IsBlank(value) && Email.MatchesPattern(value)
    ensures IsBlank(value) ==> r == required
    ensures r != "" && !IsBlank(value) ==> r == InvalidEmail
  {
    if IsBlank(value) then required
    else if !Email.LooksLikeEmail(value) then InvalidEmail
    else ""
  }

  /** The password field's message: "required" when blank after trimming,
      otherwise "too short" when the untrimmed text has fewer than 8 UTF-16
      code units (JavaScript's `length`). */
  function PasswordError(password: string): (r: string)
    ensures r == "" <==> !IsBlank(password) && Utf16Length(password) >= MinPasswordLength
    ensures IsBlank(password) ==> r == PasswordRequired
    ensures r != "" && !IsBlank(password) ==> r == PasswordTooShort
  {
    if IsBlank(password) then PasswordRequired
    else if Utf16Length(password) < MinPasswordLength then PasswordTooShort
    else ""
  }

  /** The confirmation field's message depends only on whether the two texts
      are equal, whatever the password's own message is. */
  function ConfirmError(password: string, confirm: string): (r: string)
    ensures r == "" <==> password == confirm
    ensures r != "" ==> r == PasswordsDiffer
  {
    if password != confirm then PasswordsDiffer else ""
  }

  /** `newErrors[f] = message` when a check has a message: the map gains, or
      overwrites, exactly that entry; a passed check leaves the map alone. */
  function Record<F>(errors: map<F, string>, f: F, message: string): (r: map<F, string>)
    ensures message != "" ==> r.Keys == errors.Keys + {f} && r[f] == message
    ensures message == "" ==> r == errors
    ensures forall g :: g in errors && g != f ==> r[g] == errors[g]
  {
    if message != "" then errors[f := message] else errors
  }

  /** `if (!value.trim()) newErrors[f] = message`. */
  method CheckRequired<F>(errors: map<F, string>, f: F, value: string, message: string)
      returns (r: map<F, string>)
    requires message != ""
    ensures r == Record(errors, f, RequiredError(value, message))
  {
    r := errors;
    if IsBlank(value) {
      r := r[f := message];
    }
  }

  /** The email check: "required" when blank, else the format message when the
      text has no match of `\S+@\S+\.\S+`. */
  method CheckEmail<F>(errors: map<F, string>, f: F, value: string, required: string)
      returns (r: map<F, string>)
    requires required != ""
    ensures r == Record(errors, f, EmailError(value, required))
  {
    r := errors;
    if IsBlank(value) {
      r := r[f := required];
    } else if !Email.LooksLikeEmail(value) {
      r := r[f := InvalidEmail];
    }
  }

  /** The password check: "required" when blank, else "too short" under 8 characters. */
  method CheckPassword<F>(errors: map<F, string>, f: F, password: string)
      returns (r: map<F, string>)
    ensures r == Record(errors, f, PasswordError(password))
  {
    r := errors;
    if IsBlank(password) {
      r := r[f := PasswordRequired];
    } else if Utf16Length(password) < MinPasswordLength {
      r := r[f := PasswordTooShort];
    }
  }

  /** `if (password !== confirmPassword) newErrors[f] = 'Passwords do not match'`. */
  method CheckConfirm<F>(errors: map<F, string>, f: F, password: string, confirm: string)
      returns (r: map<F, string>)
    ensures r == Record(errors, f, ConfirmError(password, confirm))
  {
    r := errors;
    if password != confirm {
      r := r[f := PasswordsDiffer];
    }
  }

  /** `if (!n || n === 0) newErrors[f] = message`. */
  method CheckChoice<F>(errors: map<F, string>, f: F, n: JsNumber, message: string)
      returns (r: map<F, string>)
    requires message != ""
    ensures r == Record(errors, f, ChoiceError(n, message))
  {
    r := errors;
    if !n.Truthy() {
      r := r[f := message];
    }
  }

  /** For text within the Basic Multilingual Plane the rule counts characters:
      a non-blank password is too short exactly when it has fewer than 8. */
  lemma PasswordRuleWithinBmp(password: string)
    requires forall i :: 0 <= i < |password| ==> password[i] as int < 0x1_0000
    requires !IsBlank(password)
    ensures PasswordError(password) == if |password| < MinPasswordLength then PasswordTooShort else ""
  {
    Utf16LengthOfBmp(password);
  }

  /** A 7-character password is too short, and eight spaces count as blank
      rather than long enough. */
  lemma PasswordLengthBoundary()
    ensures PasswordError("abcdefg") == PasswordTooShort
    ensures PasswordError("        ") == PasswordRequired
  {
    assert !IsSpace("abcdefg"[0]);
    PasswordRuleWithinBmp("abcdefg");
  }

  /** Characters outside the Basic Multilingual Plane count twice: four
      emoji are long enough. */
  lemma PasswordCountsCodeUnits()
    ensures PasswordError("\U{1F600}\U{1F600}\U{1F600}\U{1F600}") == ""
  {
    var e := "\U{1F600}\U{1F600}\U{1F600}\U{1F600}";
    assert !IsSpace(e[0]);
    assert Utf16Length(e[3..]) == 2;
    assert Utf16Length(e[2..]) == 4;
    assert Utf16Length(e[1..]) == 6;
  }

  /** Two different passwords that each pass the length rule still get the
      mismatch message; two identical empty passwords do not. */
  lemma MismatchIndependentOfLength()
    ensures PasswordError("abcdefgh") == "" && PasswordError("abcdefgi") == ""
    ensures ConfirmError("abcdefgh", "abcdefgi") == PasswordsDiffer
    ensures ConfirmError("", "") == ""
  {
    assert !IsSpace("abcdefgh"[0]);
    assert !IsSpace("abcdefgi"[0]);
  }
}
