# Organization and user management: a verified model

This project models the organization and user management application in
Dafny. The application has a React single-page console and a Django REST
backend. The model covers the following parts:

- **The console (`App`).** This is the state the page keeps: the current
  view and tab, the open modals, who is signed in, and the session token
  kept in browser storage. It includes every handler that changes this
  state. A handler that talks to the server takes the server's reply as a
  parameter. It returns the request it issued and the text it alerts.
  `ErrorMessage` models how the console turns an error body into the alert
  text.
- **The HTTP client (`Api`).** This covers the base URL and default
  headers, and the route and method of every operation. It also covers the
  request interceptor, which attaches `Token <token>` when a token is
  stored.
- **The four modal forms.** These are `OrganizationModal`, `UserModal`,
  `OrganizationSignupModal` and `UserRegistrationModal`. Each is a class
  with the draft and the error map as fields. `Submit` runs the field
  checks in the order the form runs them, and `Change` edits one field.
  The rules the forms share live in `Forms`, `Text` (trim, `parseInt`) and
  `Email` (the `\S+@\S+\.\S+` test).
- **The server serializers (`Serializers`).** This covers the login
  decision and the registration checks. It also covers the creation of an
  organization with its administrator, and the create and update of a
  member. These run against a `Store` class that holds the three tables
  and their uniqueness and link invariants.
- **Whole-client scenarios (`Session`).** These compose the console with
  the interceptor and with the registration form.

Every operation is proved against a specification. Functions state what
their result means. State-changing methods state the whole new state, and
preserve the class invariant. Lemmas relate operations to each other, for
example:

- routes are injective;
- `parseInt` reads the number after whitespace and a sign, ignores what follows the digits, and reads back a rendered id;
- applying the same member update twice equals applying it once;
- flattening the serializer's message lists yields exactly their messages.

Some behaviour follows from the code as written and is stated in the
contracts:

- **The signup reply has no token.** The `/auth/signup/` view answers
  without a `token` key (organizations/views.py:50-53).
  `localStorage.setItem` then stores the text "undefined". So after the
  console's `handleSignup`, the console counts as signed in and every
  request carries `Token undefined`. See `App.Console.HandleSignup`,
  `App.StoredText` and `Session.LoginThenRequest`.
- **A refused login always shows the default text.** The login view
  reports a refusal under `non_field_errors` (organizations/views.py:85),
  never under `detail`. So the login alert always falls back to its
  default text (`App.ServerMessagesShown`).
- **The registration form always resets after an acceptable submit.** The
  console's `handleUserRegistration` catches every failure, so the form's
  `onSubmit` never throws. The form therefore clears an acceptable draft
  even when the server refuses it (`Session.RegisterRefused`).
- **Organization signup is not atomic.** The organization row is written
  before the administrator user. A derived username that is already taken
  leaves the organization behind without a user
  (`Serializers.Store.OrganizationSignup`). The derived username is the
  organization name, lower-cased, with spaces turned into underscores.
  Two different names can derive the same username
  (`Serializers.DeriveUsernameCollides`).

## Model

| member | source | states |
|---|---|---|
| Text.TrimStart | components/OrganizationModal.tsx:35 | the leading part removed is all whitespace, and what remains starts with a non-whitespace character |
| Text.TrimEnd | components/OrganizationModal.tsx:35 | the trailing part removed is all whitespace, and what remains ends with a non-whitespace character |
| Text.TrimEmptyIffBlank | components/OrganizationModal.tsx:35 | `!value.trim()` holds exactly when every character is whitespace |
| Text.Lower | organizations/serializers.py:122 | `lower()` keeps the length and lower-cases each character in place |
| Text.ReplaceChar | organizations/serializers.py:122 | `replace(' ', '_')` keeps the length and swaps exactly the matching characters |
| Text.NatToString | services/api.ts:24 | an id renders as a non-empty run of decimal digits |
| Text.DigitPrefix | components/UserModal.tsx:92 | `parseInt` reads the longest prefix of digits |
| Text.DigitPrefixOfDigits | components/UserModal.tsx:92 | a run of digits followed by a non-digit is read whole and no further |
| Text.TrimStartOfBlankPrefix | components/UserModal.tsx:92 | `parseInt` skips exactly the leading whitespace |
| Text.SignedValue | components/UserModal.tsx:92 | no digits read gives NaN, any digits give a number |
| Text.ReadSigned | components/UserModal.tsx:92 | after the whitespace, a number results exactly when the text starts with a digit, or with one sign and then a digit |
| Text.ParseIntIsNumber | components/UserModal.tsx:92 | `parseInt` gives a number exactly when the text after its leading whitespace starts with a digit or with a sign and a digit |
| Text.ParseIntReads | components/UserModal.tsx:92 | whitespace, an optional sign, the decimal digits of n and any text not starting with a digit read as n, negated after '-' |
| Text.ParseIntOfIntToString | components/UserModal.tsx:92 | parsing an id rendered in decimal gives back that id |
| Text.Utf16Length | components/OrganizationSignupModal.tsx:43 | JavaScript's `length` counts one or two code units per character, so it lies between the character count and twice it |
| Text.Utf16LengthOfBmp | components/OrganizationSignupModal.tsx:43 | for text within the Basic Multilingual Plane, `length` is the character count |
| Text.IntToStringInjective | services/api.ts:24 | different ids render as different path segments |
| Text.IntToStringHasNoSlash | services/api.ts:24 | a rendered id contains no '/' and no whitespace |
| Email.LooksLikeEmail | components/UserModal.tsx:63 | the scan accepts exactly the texts that contain a match of `\S+@\S+\.\S+` |
| Email.Examples | components/UserModal.tsx:63 | "foo" is rejected and "foo@bar.com" accepted |
| Email.Unanchored | components/UserModal.tsx:63 | the test is unanchored, so text around an accepted address stays accepted |
| Email.AcceptedIsAtLeastFiveLong | components/OrganizationSignupModal.tsx:38 | every accepted email has at least five characters |
| Forms.ClearError | components/OrganizationModal.tsx:55-57 | the edited field's error becomes empty; the keys and every other entry stay |
| Forms.RequiredError | components/OrganizationModal.tsx:35-37 | a required text has its message exactly when it is blank after trimming |
| Forms.ChoiceError | components/UserRegistrationModal.tsx:80-82 | the organization has its message exactly when it is 0 or NaN |
| Forms.EmailError | components/UserModal.tsx:61-65 | "required" when blank, otherwise the format message exactly when there is no pattern match, otherwise no message |
| Forms.PasswordError | components/OrganizationSignupModal.tsx:41-45 | "required" when blank, otherwise "too short" under 8 UTF-16 code units of untrimmed `length`, otherwise no message |
| Forms.ConfirmError | components/OrganizationSignupModal.tsx:46-48 | the mismatch message appears exactly when the two texts differ |
| Forms.Record | components/OrganizationModal.tsx:34-40 | a failed check adds or overwrites only its own entry; a passed check changes nothing |
| Forms.CheckRequired | components/UserModal.tsx:52-54 | the `if (!x.trim())` statement records exactly `RequiredError` |
| Forms.CheckEmail | components/UserModal.tsx:61-65 | the if/else-if statement records exactly `EmailError` |
| Forms.CheckPassword | components/UserRegistrationModal.tsx:72-76 | the if/else-if statement records exactly `PasswordError` |
| Forms.CheckConfirm | components/UserRegistrationModal.tsx:77-79 | the statement records exactly `ConfirmError` |
| Forms.CheckChoice | components/UserModal.tsx:66-68 | the statement records exactly `ChoiceError` |
| Forms.NonEmptyMap | components/OrganizationModal.tsx:42 | `Object.keys(m).length > 0` holds exactly for a non-empty map |
| Forms.PasswordRuleWithinBmp | components/OrganizationSignupModal.tsx:41-45 | within the Basic Multilingual Plane, a non-blank password is too short exactly when it has fewer than 8 characters |
| Forms.PasswordLengthBoundary | components/OrganizationSignupModal.tsx:41-45 | 7 characters are too short, and 8 spaces count as blank |
| Forms.PasswordCountsCodeUnits | components/OrganizationSignupModal.tsx:43 | four emoji are 8 code units and pass the length rule |
| Forms.MismatchIndependentOfLength | components/OrganizationSignupModal.tsx:41-48 | two valid but different passwords still mismatch; two empty ones match |
| OrganizationModal.With | components/OrganizationModal.tsx:52-54 | only the named field takes the new text |
| OrganizationModal.Errors | components/OrganizationModal.tsx:33-45 | an entry exists for exactly the blank fields, each entry is its field's message, and the map is empty exactly when both fields have text |
| OrganizationModal.CollectErrors | components/OrganizationModal.tsx:34-42 | the checks in source order build exactly `Errors`, and it is non-empty exactly when the draft is unacceptable |
| OrganizationModal.OrganizationForm.constructor | components/OrganizationModal.tsx:23-28 | the draft is the edited organization or empty, and there are no errors |
| OrganizationModal.OrganizationForm.Submit | components/OrganizationModal.tsx:30-50 | an unacceptable draft records its errors, submits nothing and is kept; an acceptable one is submitted as typed, and the form empties |
| OrganizationModal.OrganizationForm.Change | components/OrganizationModal.tsx:52-58 | the field is updated and only its error is cleared |
| UserModal.With | components/UserModal.tsx:88-93 | only the named field changes; the organization stores `parseInt` of the text |
| UserModal.FieldErrorsMean | components/UserModal.tsx:51-70 | each field's message is present exactly under that field's rule; a blank email gets "required", a malformed one the format message |
| UserModal.EmptyWhenNoCheckFails | components/UserModal.tsx:70 | with the optional fields unflagged, the map is empty exactly when none of the five checked fields is flagged |
| UserModal.Errors | components/UserModal.tsx:47-73 | the map is empty exactly when acceptable; each entry is its field's message; username, first and last name are flagged exactly when blank; the email exactly when blank or without a pattern match, with "required" when blank and never the format message then; the organization exactly for 0 or NaN; position and phone never |
| UserModal.CollectErrors | components/UserModal.tsx:51-70 | the five checks in source order build exactly `Errors` |
| UserModal.UserForm.constructor | components/UserModal.tsx:35-45 | each text is the edited user's value or ''; the organization is the user's if non-zero, else the first listed id, else 0 |
| UserModal.UserForm.Submit | components/UserModal.tsx:47-86 | errors block submission and keep the draft; otherwise the whole draft is submitted and the form resets to the first listed organization |
| UserModal.UserForm.Change | components/UserModal.tsx:88-97 | the field is updated through `parseInt` for the organization, and only its error is cleared |
| UserModal.SelectingAnOrganization | components/UserModal.tsx:88-93 | choosing an option stores its id; the "0" placeholder stays flagged |
| OrganizationSignupModal.With | components/OrganizationSignupModal.tsx:70-72 | only the named field takes the new text |
| OrganizationSignupModal.Payload | components/OrganizationSignupModal.tsx:58 | the payload carries the four fields other than the confirmation unchanged |
| OrganizationSignupModal.FieldErrorsMean | components/OrganizationSignupModal.tsx:32-53 | each field's message is present exactly under that field's rule; a blank email gets "required" and a non-blank short password "too short" |
| OrganizationSignupModal.EmptyWhenNoCheckFails | components/OrganizationSignupModal.tsx:53 | the map is empty exactly when none of the five fields is flagged |
| OrganizationSignupModal.Errors | components/OrganizationSignupModal.tsx:28-56 | the map is empty exactly when acceptable; each field's entry exists exactly under its rule and is its field's message; the confirmation is flagged exactly when the texts differ |
| OrganizationSignupModal.CollectErrors | components/OrganizationSignupModal.tsx:32-53 | the five checks in source order build exactly `Errors` |
| OrganizationSignupModal.OrganizationSignupForm.constructor | components/OrganizationSignupModal.tsx:17-26 | all fields start empty, with no errors |
| OrganizationSignupModal.OrganizationSignupForm.Submit | components/OrganizationSignupModal.tsx:28-68 | errors block submission; otherwise the payload without the confirmation is submitted and all fields empty |
| OrganizationSignupModal.OrganizationSignupForm.Change | components/OrganizationSignupModal.tsx:70-76 | the field is updated and only its error is cleared |
| UserRegistrationModal.With | components/UserRegistrationModal.tsx:112-117 | only the named field changes; the organization stores `parseInt` of the text |
| UserRegistrationModal.Payload | components/UserRegistrationModal.tsx:91 | the payload carries the eight fields other than the confirmation unchanged |
| UserRegistrationModal.FieldErrorsMean | components/UserRegistrationModal.tsx:58-82 | each field's message is present exactly under that field's rule; phone and position never have one |
| UserRegistrationModal.EmptyWhenNoCheckFails | components/UserRegistrationModal.tsx:84 | with the optional fields unflagged, the map is empty exactly when none of the seven checked fields is flagged |
| UserRegistrationModal.Errors | components/UserRegistrationModal.tsx:53-87 | the map is empty exactly when acceptable; every checked field's entry exists exactly under its rule and is its field's message; phone and position are never flagged |
| UserRegistrationModal.CollectErrors | components/UserRegistrationModal.tsx:57-84 | the seven checks in source order build exactly `Errors` |
| UserRegistrationModal.UserRegistrationForm.constructor | components/UserRegistrationModal.tsx:21-36 | empty texts, organization 0, no errors, no organizations, not loading |
| UserRegistrationModal.UserRegistrationForm.Opened | components/UserRegistrationModal.tsx:38-51 | opening loads the fetched list; a failed fetch or a closed form keeps the old list |
| UserRegistrationModal.UserRegistrationForm.Submit | components/UserRegistrationModal.tsx:53-110 | errors block submission and leave `loading` alone; otherwise the payload is submitted, the form resets only when `onSubmit` did not throw, and `loading` ends false |
| UserRegistrationModal.UserRegistrationForm.Change | components/UserRegistrationModal.tsx:112-121 | the field is updated and only its error is cleared |
| UserRegistrationModal.EmptyFormErrors | components/UserRegistrationModal.tsx:21-31 | the initial form fails on exactly the six required fields; its equal empty passwords pass the confirmation |
| Api.RequestConfig.constructor | services/api.ts:5-10 | a new request carries only `Content-Type: application/json` |
| Api.Intercept | services/api.ts:13-19 | with a non-empty stored token, `Authorization` becomes `Token <token>`, and nothing else changes |
| Api.RoutesAreSlashDelimited | services/api.ts:22-49 | every route starts and ends with '/', and its URL extends the base URL |
| Api.IdRouteInjective | services/api.ts:24 | two id routes with the same shape name the same id |
| Api.OrganizationPathNotUsersPath | services/api.ts:37 | an organization's path differs from every organization-users path |
| Api.UpdateDeleteInjective | services/api.ts:26-36 | a PUT or DELETE on an id matches no other operation |
| Api.RequestOfInjective | services/api.ts:22-49 | no two operations share a method and a path |
| App.StoredText | App.tsx:179 | a missing token is stored as the text "undefined" |
| App.ErrorMessage | App.tsx:216-228 | default with no body; a truthy `detail` wins; other objects and arrays give their flattened values joined by ", "; a non-empty string body is shown as is |
| App.DetailOr | App.tsx:187 | `detail` when the body has a truthy one, otherwise the default |
| App.FlatMessageLists | App.tsx:223-224 | flattening message lists and printing the elements yields exactly all their messages, in order |
| App.ValidationErrorsJoined | App.tsx:249-252 | a serializer's error body without `detail` is alerted as every message, in field order, joined by ", " |
| App.ServerMessagesShown | App.tsx:185-188 | a `non_field_errors` refusal leaves the login alert at its default; a username error is shown as the registration alert |
| App.Console.constructor | App.tsx:45-61 | the first render: loading, landing view, organizations tab, modals closed, nobody signed in, and storage as left |
| App.Console.HandleOrganizationClick | App.tsx:69-75 | signed in: the organizations view; otherwise only the signup modal opens |
| App.Console.HandleUsersClick | App.tsx:77-79 | the users view, with no sign-in check |
| App.Console.HandleUserRegistrationClick | App.tsx:81-83 | opens the registration modal |
| App.Console.HandleBackToMain | App.tsx:85-88 | the landing view and the organizations tab |
| App.Console.SelectTab | App.tsx:411 | only the active tab changes |
| App.Console.CheckAuthStatus | App.tsx:90-103 | no token: nothing happens; profile reply: signed in as that user; a refused profile removes the token and signs out |
| App.Console.FetchData | App.tsx:105-119 | both lists are requested and replaced together on success, kept on failure; loading ends |
| App.Console.HandleOrgSubmit | App.tsx:121-135 | PUT on the edited id or POST; success closes the modal and refreshes; failure alerts and changes nothing |
| App.Console.HandleUserSubmit | App.tsx:137-151 | the same for users |
| App.Console.HandleDeleteOrg | App.tsx:153-162 | a DELETE only when confirmed, and a refresh only when it succeeds; no state changes |
| App.Console.HandleDeleteUser | App.tsx:164-173 | the same for users |
| App.Console.HandleLogin | App.tsx:176-189 | success stores the token as text, signs the user in and shows organizations; failure alerts `detail` or the default |
| App.Console.HandleSignup | App.tsx:191-204 | as login, through the signup endpoint |
| App.Console.HandleOrgSignup | App.tsx:206-232 | success only closes the modal, so nobody is signed in; failure alerts `ErrorMessage` |
| App.Console.HandleUserRegistration | App.tsx:234-260 | success closes the modal and refreshes; failure alerts `ErrorMessage`; it never rethrows to the caller |
| App.Console.HandleLogout | App.tsx:262-274 | whatever the server answers: token removed, signed out, landing view |
| App.Console.CloseLogin | App.tsx:357 | only the login modal closes |
| App.Console.SwitchLoginToSignup | App.tsx:359-362 | login closes and signup opens |
| App.Console.CloseSignup | App.tsx:367 | only the signup modal closes |
| App.Console.SwitchSignupToLogin | App.tsx:369-372 | signup closes and login opens |
| App.Console.CloseOrgSignup | App.tsx:378 | only the organization signup modal closes |
| App.Console.SwitchOrgSignupToLogin | App.tsx:380-383 | organization signup closes and login opens |
| App.Console.CloseUserRegistration | App.tsx:388 | only the registration modal closes |
| App.Console.OpenOrgModal | App.tsx:463-483 | the organization modal opens for the given organization, or for a new one |
| App.Console.CloseOrgModal | App.tsx:578-581 | the organization modal closes and forgets the edited organization |
| App.Console.OpenUserModal | App.tsx:510-551 | the user modal opens for the given user, or for a new one |
| App.Console.CloseUserModal | App.tsx:588-591 | the user modal closes and forgets the edited user |
| Session.SendWith | services/api.ts:13-19 | a request carries `Token <t>` exactly when a non-empty token is stored |
| Session.LoginThenRequest | App.tsx:176-189 | after login, requests carry the returned token, or `Token undefined` when the reply has none |
| Session.LogoutThenRequest | App.tsx:262-274 | after logout, requests carry no `Authorization` header |
| Session.OrgSignupThenRequest | App.tsx:206-232 | creating an organization signs nobody in and adds no `Authorization` header |
| Session.StaleTokenDropped | App.tsx:90-103 | a token the profile request rejects is not sent again |
| Session.RegisterRefused | components/UserRegistrationModal.tsx:89-109 | the console's handler is the form's `onSubmit` and its outcome, which is never a rethrow, is what the form sees; so a refused registration still clears the form, and the alert is the server's extracted message |
| Serializers.LoginValidate | organizations/serializers.py:195-211 | succeeds exactly with both credentials and an active user, adding only `user`; each failure gives its own message, in source order |
| Serializers.LoginNeedsBothCredentials | organizations/serializers.py:199-209 | without a username, every backend gives the same missing-credentials refusal |
| Serializers.DeriveUsername | organizations/serializers.py:122 | same length, no spaces, no upper case; each character lower-cased or '_' |
| Serializers.DeriveUsernameIdempotent | organizations/serializers.py:122 | deriving from a derived username changes nothing |
| Serializers.DeriveUsernameCollides | organizations/serializers.py:122 | "Acme Inc" and "acme_inc" derive the same username |
| Serializers.ValidateUsername | organizations/serializers.py:158-161 | refused exactly when some user holds the username |
| Serializers.ValidateEmail | organizations/serializers.py:163-166 | refused exactly when some user holds the email |
| Serializers.ValidateOrganization | organizations/serializers.py:151-156 | refused exactly when no organization has the id |
| Serializers.RegistrationErrors | organizations/serializers.py:151-166 | no errors exactly when all three checks pass, and each failing check is reported |
| Serializers.SetAccountField | organizations/serializers.py:96 | `setattr` changes exactly one attribute |
| Serializers.OverlayAccount | organizations/serializers.py:95-96 | provided attributes take their new values, and the others and the password stay |
| Serializers.SetAccountAttributes | organizations/serializers.py:95-96 | the loop, in any key order, reaches the overlay |
| Serializers.WithPassword | organizations/serializers.py:97-98 | only a supplied, non-empty password replaces the old one |
| Serializers.SetProfileField | organizations/serializers.py:103 | `setattr` changes exactly one profile attribute |
| Serializers.OverlayProfile | organizations/serializers.py:102-103 | provided profile attributes change, and the linked user stays |
| Serializers.SetProfileAttributes | organizations/serializers.py:102-103 | the loop, in any key order, reaches the overlay |
| Serializers.UpdateIdempotent | organizations/serializers.py:89-106 | applying the same member update twice equals applying it once, for the user and for the profile |
| Serializers.Store.constructor | organizations/models.py:5-29 | empty tables satisfy the store invariant |
| Serializers.Store.OrganizationSignup | organizations/serializers.py:114-139 | a taken name writes nothing; otherwise the organization gets the placeholder address; a taken derived username stops before the user; otherwise Admin/User with the signup's email and password, and an Administrator profile |
| Serializers.Store.RegisterUser | organizations/serializers.py:168-189 | any field error writes nothing and reports them all; otherwise an active user plus a profile, with a missing phone or position stored as '' |
| Serializers.Store.CreateMember | organizations/serializers.py:81-87 | the password is the given one or `defaultpassword123`; a taken username is refused; a missing phone or position stays null |
| Serializers.Store.UpdateMember | organizations/serializers.py:89-106 | the user takes exactly the provided attributes and any non-empty password; the profile takes exactly its own; a username held by another user is refused |

## Left out

- The JSX rendering, CSS, icons and the show-password toggles are left out: they change nothing the model tracks.
- `alert`, `console.error` and `window.confirm` are left out as I/O. An alert is a returned string, and a confirmation is a boolean parameter.
- Asynchrony is left out. Each handler runs to completion with the server's reply as a parameter. The interleaving of `fetchData` calls and the order of the two parallel `Promise.all` requests are not modelled.
- Request bodies are left out. A request is its method and path; the form payloads are separate results of the forms' `Submit`.
- `parseInt` is modelled for decimal text only, and its value is an unbounded integer. Reading stops at the first non-digit, so "1.9" reads as 1 and "-1.9" as -1 (`Text.DigitPrefix`, `Text.ParseIntReads`). Hexadecimal prefixes are not modelled. The conversion of the result to a double is not modelled either: above 2^53 JavaScript loses precision ("9007199254740993" reads as 9007199254740992), the model does not.
- Whitespace is the ASCII set: space, tab, line feed, vertical tab, form feed and carriage return. Lower-casing is ASCII only. Unicode whitespace and case mapping are not modelled.
- `OrganizationModal.OrganizationForm.constructor` and `UserModal.UserForm.constructor` model one mount. The `useState` initialisers run at each mount: on entering the organizations or users view (App.tsx:396, 745), and again after every loading screen, which replaces the whole page while `loading` is set (App.tsx:276-285). The model covers a single mount, during which reopening a modal for another organization or user does not prefill its form again. The reset of the draft on remount, and the prefill when a remount happens while an organization or user is being edited, are not modelled. `App.Console.OpenOrgModal` and `App.Console.OpenUserModal` therefore change only the console's state.
- Lone UTF-16 surrogates are not modelled: a character is a Unicode scalar value, counted as one or two code units by `Text.Utf16Length`.
- components/LoginModal.tsx and components/SignupModal.tsx are not part of this model. The console's handlers for them are modelled.
- organizations/views.py, urls.py and admin.py are not part of this model beyond the reply shapes cited above. That includes token creation, `login`/`logout` sessions, permission classes and the 404 paths.
- `OrganizationUserSerializer` is not modelled. No view creates through it: `update_profile` passes an existing instance (organizations/views.py:115-117), so `save()` runs `update`, and that view is outside the modelled core.
- DRF's field-level validation is not modelled: `max_length`, `EmailField`, `min_length=8`, `IntegerField` and required fields. The serializer methods start from data that passed it.
- Password hashing is not modelled: the stored password is the given one. `create_user`'s normalisation of the email is not modelled either.
- Database transactions are not modelled. Each table write is a separate step, as the code issues them.
- Ids come from one counter shared by the three tables, rather than one sequence per table.
- Display-only fields are left out: `created_at`, `updated_at`, `organization_name` and `users_count`.
- `Serializers.Store.CreateMember`: requires the organization to exist. Otherwise DRF's related-field validation refuses the request before `create` runs, and that refusal is not modelled.
- `Serializers.Store.UpdateMember`: requires the member to exist and any new organization to exist. A missing member is a 404 from the view, and a missing organization is refused by DRF's validation; neither path is modelled.
- `Serializers.LoginValidate`: `authenticate` is an arbitrary oracle. Django's default backend never returns an inactive user, so with it the "disabled" branch cannot be reached.
