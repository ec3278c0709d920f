/**
 * The server's validation and persistence rules: the login decision, the
 * registration checks, the organization signup, and the create and update
 * of an organization member. The database is an abstract store of three
 * tables keyed by id; password hashing is left abstract (the stored password
 * is the one given).
 */
module Serializers {
  import opened Wrappers
  import opened Text

  // ---------------------------------------------------------------------
  // Login
  // ---------------------------------------------------------------------

  /** A value of the serializer's `data` dict: a submitted text, or the user
      object that validation adds. */
  datatype DataValue = Str(s: string) | UserRef(id: int)

  /** What the authentication backend returns for a credential pair. */
  datatype Candidate = Candidate(id: int, isActive: bool)

  const MissingCredentials: string := "Must include username and password."
  const BadCredentials: string := "Unable to log in with provided credentials."
  const AccountDisabled: string := "User account is disabled."

  /** `data.get(key)`. */
  function Lookup(data: map<string, DataValue>, key: string): Option<DataValue> {
    if key in data then Some(data[key]) else None
  }

  /** Python truthiness of `data.get(key)`: present and not the empty string. */
  predicate Truthy(v: Option<DataValue>) {
    v.Some? && (v.value.Str? ==> v.value.s != "")
  }

  /** Both credentials are present and non-empty. */
  predicate HasCredentials(data: map<string, DataValue>) {
    Truthy(Lookup(data, "username")) && Truthy(Lookup(data, "password"))
  }

  /** `LoginSerializer.validate`, with `authenticate` as an oracle. It
      succeeds exactly when both credentials are given and the backend returns
      an active user; the result is the input with a `user` entry for that
      user and nothing else changed. Each failure has its own message, checked
      in this order: missing credentials, unknown credentials, inactive user. */
  function LoginValidate(data: map<string, DataValue>, authenticate: (DataValue, DataValue) -> Option<Candidate>)
    : (r: Result<map<string, DataValue>, string>)
    ensures r.Success? <==>
      HasCredentials(data) &&
      authenticate(data["username"], data["password"]).Some? &&
      authenticate(data["username"], data["password"]).value.isActive
    ensures r.Success? ==>
      r.value.Keys == data.Keys + {"user"} &&
      r.value["user"] == UserRef(authenticate(data["username"], data["password"]).value.id) &&
      forall k :: k in data && k != "user" ==> r.value[k] == data[k]
    ensures !HasCredentials(data) ==> r == Failure(MissingCredentials)
    ensures HasCredentials(data) && authenticate(data["username"], data["password"]).None? ==>
      r == Failure(BadCredentials)
    ensures (HasCredentials(data) && authenticate(data["username"], data["password"]).Some? &&
      !authenticate(data["username"], data["password"]).value.isActive) ==>
      r == Failure(AccountDisabled)
  {
    var username := Lookup(data, "username");
    var password := Lookup(data, "password");
    if Truthy(username) && Truthy(password) then
      var user := authenticate(username.value, password.value);
      if user.Some? then
        if user.value.isActive then Success(data["user" := UserRef(user.value.id)])
        else Failure(AccountDisabled)
      else Failure(BadCredentials)
    else Failure(MissingCredentials)
  }

  /** Without both credentials the backend is never decisive: every oracle
      gives the same refusal. */
  lemma LoginNeedsBothCredentials(data: map<string, DataValue>,
      auth1: (DataValue, DataValue) -> Option<Candidate>, auth2: (DataValue, DataValue) -> Option<Candidate>)
    requires "username" !in data || data["username"] == Str("")
    ensures LoginValidate(data, auth1) == LoginValidate(data, auth2) == Failure(MissingCredentials)
  {
  }

  // ---------------------------------------------------------------------
  // Organization signup: the administrator's username
  // ---------------------------------------------------------------------

  /** `organization_name.lower().replace(' ', '_')`. */
  function DeriveUsername(organizationName: string): (r: string)
    ensures |r| == |organizationName|
    ensures forall i :: 0 <= i < |r| ==> r[i] != ' ' && !IsUpper(r[i])
    ensures forall i :: 0 <= i < |r| ==>
      r[i] == if organizationName[i] == ' ' then '_' else LowerChar(organizationName[i])
  {
    ReplaceChar(Lower(organizationName), ' ', '_')
  }

  /** Deriving again changes nothing: a derived username is its own derivation. */
  lemma DeriveUsernameIdempotent(organizationName: string)
    ensures DeriveUsername(DeriveUsername(organizationName)) == DeriveUsername(organizationName)
  {
    var u := DeriveUsername(organizationName);
    forall i | 0 <= i < |u|
      ensures DeriveUsername(u)[i] == u[i]
    {
      assert !IsUpper(u[i]);
    }
  }

  /** Different organization names can claim the same username, so a second
      organization's administrator can collide with the first's. */
  lemma DeriveUsernameCollides()
    ensures "Acme Inc" != "acme_inc"
    ensures DeriveUsername("Acme Inc") == DeriveUsername("acme_inc") == "acme_inc"
  {
    assert "Acme Inc"[0] != "acme_inc"[0];
    assert DeriveUsername("Acme Inc") == "acme_inc";
    assert DeriveUsername("acme_inc") == "acme_inc";
  }

  // ---------------------------------------------------------------------
  // The store
  // ---------------------------------------------------------------------

  /** A Django user. */
  datatype Account = Account(
    username: string,
    email: string,
    password: string,
    firstName: string,
    lastName: string,
    isActive: bool)

  /** An organization row. */
  datatype OrgRow = OrgRow(name: string, address: string)

  /** An organization member: the profile linking a user to an organization. */
  datatype Profile = Profile(
    account: int,
    organization: int,
    phoneNumber: Option<string>,
    position: Option<string>)

  /** Why a create or update did not happen: a unique column already holds the
      value (the database refuses the row), or the serializer's validation
      errors, field by field in declaration order. */
  datatype Refusal = Duplicate(column: string) | Invalid(errors: seq<(string, string)>)

  const DefaultAddress: string := "Address will be updated later"
  const AdminFirstName: string := "Admin"
  const AdminLastName: string := "User"
  const AdminPosition: string := "Administrator"
  const DefaultMemberPassword: string := "defaultpassword123"

  function OrganizationNames(organizations: map<int, OrgRow>): set<string> {
    set id | id in organizations :: organizations[id].name
  }

  function Usernames(accounts: map<int, Account>): set<string> {
    set id | id in accounts :: accounts[id].username
  }

  function Emails(accounts: map<int, Account>): set<string> {
    set id | id in accounts :: accounts[id].email
  }

  // ---------------------------------------------------------------------
  // Registration checks
  // ---------------------------------------------------------------------

  /** The signup form's data as `UserRegistrationSerializer` validates it;
      `None` for an optional field the request leaves out. */
  datatype Registration = Registration(
    username: string,
    email: string,
    firstName: string,
    lastName: string,
    password: string,
    organization: int,
    phoneNumber: Option<string>,
    position: Option<string>)

  const UsernameExists: string := "Username already exists."
  const EmailExists: string := "Email already exists."
  const NoSuchOrganization: string := "Organization does not exist."

  /** `validate_username`: refused exactly when some user has that username. */
  function ValidateUsername(accounts: map<int, Account>, value: string): (r: Option<string>)
    ensures r.Some? <==> exists id :: id in accounts && accounts[id].username == value
    ensures r.Some? ==> r.value == UsernameExists
  {
    if value in Usernames(accounts) then Some(UsernameExists) else None
  }

  /** `validate_email`: refused exactly when some user has that email. */
  function ValidateEmail(accounts: map<int, Account>, value: string): (r: Option<string>)
    ensures r.Some? <==> exists id :: id in accounts && accounts[id].email == value
    ensures r.Some? ==> r.value == EmailExists
  {
    if value in Emails(accounts) then Some(EmailExists) else None
  }

  /** `validate_organization`: refused exactly when no organization has that id. */
  function ValidateOrganization(organizations: map<int, OrgRow>, value: int): (r: Option<string>)
    ensures r.Some? <==> value !in organizations
    ensures r.Some? ==> r.value == NoSuchOrganization
  {
    if value !in organizations then Some(NoSuchOrganization) else None
  }

  /** The field-level errors of a registration, in field declaration order
      (username, email, organization): every failing check is reported, not
      only the first. */
  function RegistrationErrors(accounts: map<int, Account>, organizations: map<int, OrgRow>, data: Registration)
    : (r: seq<(string, string)>)
    ensures r == [] <==>
      data.username !in Usernames(accounts) && data.email !in Emails(accounts) &&
      data.organization in organizations
    ensures |r| <= 3
    ensures ("username", UsernameExists) in r <==> data.username in Usernames(accounts)
    ensures ("email", EmailExists) in r <==> data.email in Emails(accounts)
    ensures ("organization", NoSuchOrganization) in r <==> data.organization !in organizations
  {
    var u := ValidateUsername(accounts, data.username);
    var e := ValidateEmail(accounts, data.email);
    var o := ValidateOrganization(organizations, data.organization);
    (if u.Some? then [("username", u.value)] else []) +
    (if e.Some? then [("email", e.value)] else []) +
    (if o.Some? then [("organization", o.value)] else [])
  }

  // ---------------------------------------------------------------------
  // Member update: setattr over the provided keys
  // ---------------------------------------------------------------------

  /** The user attributes a member update may carry. */
  datatype AccountField = Username | Email | FirstName | LastName

  function AccountValue(a: Account, f: AccountField): string {
    match f
    case Username => a.username
    case Email => a.email
    case FirstName => a.firstName
    case LastName => a.lastName
  }

  /** `setattr(user, f, value)`. */
  function SetAccountField(a: Account, f: AccountField, value: string): (r: Account)
    ensures AccountValue(r, f) == value
    ensures forall g :: g != f ==> AccountValue(r, g) == AccountValue(a, g)
    ensures r.password == a.password && r.isActive == a.isActive
  {
    match f
    case Username => a.(username := value)
    case Email => a.(email := value)
    case FirstName => a.(firstName := value)
    case LastName => a.(lastName := value)
  }

  /** The user with every provided attribute set: a provided attribute takes
      its new value, every other one, and the password, stay. */
  function OverlayAccount(a: Account, changes: map<AccountField, string>): (r: Account)
    ensures forall f :: AccountValue(r, f) == if f in changes then changes[f] else AccountValue(a, f)
    ensures r.password == a.password && r.isActive == a.isActive
  {
    Account(
      if Username in changes then changes[Username] else a.username,
      if Email in changes then changes[Email] else a.email,
      a.password,
      if FirstName in changes then changes[FirstName] else a.firstName,
      if LastName in changes then changes[LastName] else a.lastName,
      a.isActive)
  }

  /** `for attr, value in user_data.items(): setattr(user, attr, value)`: the
      loop sets the provided attributes one at a time, in any order, and
      arrives at the overlay. */
  method SetAccountAttributes(a: Account, changes: map<AccountField, string>) returns (r: Account)
    ensures r == OverlayAccount(a, changes)
  {
    r := a;
    var todo := changes.Keys;
    while todo != {}
      invariant todo <= changes.Keys
      invariant forall f :: AccountValue(r, f) == if f in changes && f !in todo then changes[f] else AccountValue(a, f)
      invariant r.password == a.password && r.isActive == a.isActive
      decreases todo
    {
      var f :| f in todo;
      r := SetAccountField(r, f, changes[f]);
      todo := todo - {f};
    }
    SameAccount(r, OverlayAccount(a, changes));
  }

  /** Accounts that agree on every attribute, the password and the active flag are equal. */
  lemma SameAccount(a: Account, b: Account)
    requires forall f :: AccountValue(a, f) == AccountValue(b, f)
    requires a.password == b.password && a.isActive == b.isActive
    ensures a == b
  {
    assert AccountValue(a, Username) == AccountValue(b, Username);
    assert AccountValue(a, Email) == AccountValue(b, Email);
    assert AccountValue(a, FirstName) == AccountValue(b, FirstName);
    assert AccountValue(a, LastName) == AccountValue(b, LastName);
  }

  /** `if password: user.set_password(password)`: only a supplied, non-empty
      password replaces the old one. */
  function WithPassword(a: Account, password: Option<string>): (r: Account)
    ensures password.Some? && password.value != "" ==> r == a.(password := password.value)
    ensures !(password.Some? && password.value != "") ==> r == a
  {
    if password.Some? && password.value != "" then a.(password := password.value) else a
  }

  /** The profile attributes a member update may carry. */
  datatype ProfileField = PhoneNumber | Position | OrganizationRef

  /** A profile attribute's value: a nullable text, or an organization id. */
  datatype ProfileValue = Text(text: Option<string>) | Ref(id: int)

  /** Each attribute carries the kind of value its column holds. */
  predicate WellTyped(changes: map<ProfileField, ProfileValue>) {
    forall f :: f in changes ==> (changes[f].Ref? <==> f == OrganizationRef)
  }

  function ProfileValueOf(p: Profile, f: ProfileField): ProfileValue {
    match f
    case PhoneNumber => Text(p.phoneNumber)
    case Position => Text(p.position)
    case OrganizationRef => Ref(p.organization)
  }

  /** `setattr(instance, f, value)`. */
  function SetProfileField(p: Profile, f: ProfileField, value: ProfileValue): (r: Profile)
    requires value.Ref? <==> f == OrganizationRef
    ensures ProfileValueOf(r, f) == value
    ensures forall g :: g != f ==> ProfileValueOf(r, g) == ProfileValueOf(p, g)
    ensures r.account == p.account
  {
    match f
    case PhoneNumber => p.(phoneNumber := value.text)
    case Position => p.(position := value.text)
    case OrganizationRef => p.(organization := value.id)
  }

  /** The profile with every provided attribute set and the others kept; the
      linked user never changes. */
  function OverlayProfile(p: Profile, changes: map<ProfileField, ProfileValue>): (r: Profile)
    requires WellTyped(changes)
    ensures forall f :: ProfileValueOf(r, f) == if f in changes then changes[f] else ProfileValueOf(p, f)
    ensures r.account == p.account
  {
    Profile(
      p.account,
      if OrganizationRef in changes then changes[OrganizationRef].id else p.organization,
      if PhoneNumber in changes then changes[PhoneNumber].text else p.phoneNumber,
      if Position in changes then changes[Position].text else p.position)
  }

  /** `for attr, value in validated_data.items(): setattr(instance, attr, value)`. */
  method SetProfileAttributes(p: Profile, changes: map<ProfileField, ProfileValue>) returns (r: Profile)
    requires WellTyped(changes)
    ensures r == OverlayProfile(p, changes)
  {
    r := p;
    var todo := changes.Keys;
    while todo != {}
      invariant todo <= changes.Keys
      invariant forall f :: ProfileValueOf(r, f) == if f in changes && f !in todo then changes[f] else ProfileValueOf(p, f)
      invariant r.account == p.account
      decreases todo
    {
      var f :| f in todo;
      r := SetProfileField(r, f, changes[f]);
      todo := todo - {f};
    }
    SameProfile(r, OverlayProfile(p, changes));
  }

  /** Profiles that agree on the linked user and every attribute are equal. */
  lemma SameProfile(p: Profile, q: Profile)
    requires forall f :: ProfileValueOf(p, f) == ProfileValueOf(q, f)
    requires p.account == q.account
    ensures p == q
  {
    assert ProfileValueOf(p, PhoneNumber) == ProfileValueOf(q, PhoneNumber);
    assert ProfileValueOf(p, Position) == ProfileValueOf(q, Position);
    assert ProfileValueOf(p, OrganizationRef) == ProfileValueOf(q, OrganizationRef);
  }

  /** Applying the same member update twice is the same as applying it once,
      both to the user and to the profile. */
  lemma UpdateIdempotent(a: Account, changes: map<AccountField, string>, password: Option<string>,
                         p: Profile, data: map<ProfileField, ProfileValue>)
    requires WellTyped(data)
    ensures WithPassword(OverlayAccount(WithPassword(OverlayAccount(a, changes), password), changes), password)
         == WithPassword(OverlayAccount(a, changes), password)
    ensures OverlayProfile(OverlayProfile(p, data), data) == OverlayProfile(p, data)
  {
  }

  /** The management form's data as `OrganizationUserCreateUpdateSerializer`
      creates a member from it; `None` for a field the request leaves out. */
  datatype Member = Member(
    username: string,
    email: string,
    firstName: string,
    lastName: string,
    password: Option<string>,
    organization: int,
    phoneNumber: Option<string>,
    position: Option<string>)

  /** Every id is positive and below `next`. */
  predicate IdsBelow(ids: set<int>, next: int) {
    forall id :: id in ids ==> 0 < id < next
  }

  /** No two organizations share a name. */
  predicate UniqueNames(organizations: map<int, OrgRow>) {
    forall a, b :: a in organizations && b in organizations && organizations[a].name == organizations[b].name ==> a == b
  }

  /** No two users share a username. */
  predicate UniqueUsernames(accounts: map<int, Account>) {
    forall a, b :: a in accounts && b in accounts && accounts[a].username == accounts[b].username ==> a == b
  }

  /** Every profile links an existing user to an existing organization. */
  predicate Linked(profiles: map<int, Profile>, accountIds: set<int>, organizationIds: set<int>) {
    forall p :: p in profiles ==> profiles[p].account in accountIds && profiles[p].organization in organizationIds
  }

  /** No user has two profiles. */
  predicate OneProfileEach(profiles: map<int, Profile>) {
    forall p, q :: p in profiles && q in profiles && profiles[p].account == profiles[q].account ==> p == q
  }

  /** A user whose username nobody else holds keeps usernames unique. */
  lemma PutAccount(accounts: map<int, Account>, id: int, user: Account)
    requires UniqueUsernames(accounts)
    requires !HeldByOther(accounts, id, user.username)
    ensures UniqueUsernames(accounts[id := user])
  {
  }

  /** Some user other than `self` has the username. */
  predicate HeldByOther(accounts: map<int, Account>, self: int, username: string) {
    exists other :: other in accounts && other != self && accounts[other].username == username
  }

  class Store {
    var organizations: map<int, OrgRow>
    var accounts: map<int, Account>
    var profiles: map<int, Profile>
    /** The next id the database hands out. */
    var nextId: int

    /** Ids are positive and below `nextId`; organization names and usernames
        are unique; every profile links an existing user to an existing
        organization, and no user has two profiles. */
    predicate Valid()
      reads this
    {
      0 < nextId &&
      IdsBelow(organizations.Keys, nextId) && IdsBelow(accounts.Keys, nextId) && IdsBelow(profiles.Keys, nextId) &&
      UniqueNames(organizations) && UniqueUsernames(accounts) &&
      Linked(profiles, accounts.Keys, organizations.Keys) && OneProfileEach(profiles)
    }

    constructor ()
      ensures Valid()
      ensures organizations == map[] && accounts == map[] && profiles == map[]
    {
      organizations := map[];
      accounts := map[];
      profiles := map[];
      nextId := 1;
    }

    /** `OrganizationSignupSerializer.create`. A taken organization name stops
        it before anything is written. Otherwise the organization is created
        with the placeholder address; then the administrator user, named after
        the organization, is created with the signup's email and password, if
        that username is free; then the profile, with the phone number and the
        administrator position. The steps are not one transaction: a taken
        username leaves the new organization behind without a user. */
    method OrganizationSignup(organizationName: string, organizationEmail: string, phoneNumber: string,
        password: string) returns (r: Result<int, Refusal>)
      requires Valid()
      modifies this
      ensures Valid()
      ensures organizationName in OrganizationNames(old(organizations)) ==>
        r == Failure(Duplicate("name")) && organizations == old(organizations) &&
        accounts == old(accounts) && profiles == old(profiles)
      ensures organizationName !in OrganizationNames(old(organizations)) ==>
        organizations == old(organizations)[old(nextId) := OrgRow(organizationName, DefaultAddress)]
      ensures (organizationName !in OrganizationNames(old(organizations)) &&
        DeriveUsername(organizationName) in Usernames(old(accounts))) ==>
        r == Failure(Duplicate("username")) && accounts == old(accounts) && profiles == old(profiles)
      ensures (organizationName !in OrganizationNames(old(organizations)) &&
        DeriveUsername(organizationName) !in Usernames(old(accounts))) ==>
        r == Success(old(nextId) + 2) &&
        accounts == old(accounts)[old(nextId) + 1 :=
          Account(DeriveUsername(organizationName), organizationEmail, password, AdminFirstName, AdminLastName, true)] &&
        profiles == old(profiles)[old(nextId) + 2 :=
          Profile(old(nextId) + 1, old(nextId), Some(phoneNumber), Some(AdminPosition))]
    {
      if organizationName in OrganizationNames(organizations) {
        return Failure(Duplicate("name"));
      }
      var organizationId := nextId;
      organizations := organizations[organizationId := OrgRow(organizationName, DefaultAddress)];
      nextId := nextId + 1;

      var username := DeriveUsername(organizationName);
      if username in Usernames(accounts) {
        return Failure(Duplicate("username"));
      }
      var accountId := nextId;
      accounts := accounts[accountId := Account(username, organizationEmail, password, AdminFirstName, AdminLastName, true)];
      nextId := nextId + 1;

      var profileId := nextId;
      profiles := profiles[profileId := Profile(accountId, organizationId, Some(phoneNumber), Some(AdminPosition))];
      nextId := nextId + 1;
      r := Success(profileId);
    }

    /** `UserRegistrationSerializer`: with any field error nothing is written
        and every error is reported; otherwise the user is created and linked
        to the chosen organization, a left-out phone number or position
        stored as the empty text. */
    method RegisterUser(data: Registration) returns (r: Result<int, Refusal>)
      requires Valid()
      modifies this
      ensures Valid()
      ensures RegistrationErrors(old(accounts), old(organizations), data) != [] ==>
        r == Failure(Invalid(RegistrationErrors(old(accounts), old(organizations), data))) &&
        organizations == old(organizations) && accounts == old(accounts) && profiles == old(profiles)
      ensures RegistrationErrors(old(accounts), old(organizations), data) == [] ==>
        r == Success(old(nextId) + 1) &&
        organizations == old(organizations) &&
        accounts == old(accounts)[old(nextId) :=
          Account(data.username, data.email, data.password, data.firstName, data.lastName, true)] &&
        profiles == old(profiles)[old(nextId) + 1 :=
          Profile(old(nextId), data.organization,
            Some(if data.phoneNumber.Some? then data.phoneNumber.value else ""),
            Some(if data.position.Some? then data.position.value else ""))]
    {
      var errors := RegistrationErrors(accounts, organizations, data);
      if errors != [] {
        return Failure(Invalid(errors));
      }
      var phoneNumber := if data.phoneNumber.Some? then data.phoneNumber.value else "";
      var position := if data.position.Some? then data.position.value else "";

      var accountId := nextId;
      accounts := accounts[accountId := Account(data.username, data.email, data.password, data.firstName, data.lastName, true)];
      nextId := nextId + 1;

      var profileId := nextId;
      profiles := profiles[profileId := Profile(accountId, data.organization, Some(phoneNumber), Some(position))];
      nextId := nextId + 1;
      r := Success(profileId);
    }

    /** `OrganizationUserCreateUpdateSerializer.create`: the user gets the given
        password or `defaultpassword123`; a taken username is refused by the
        database; a left-out phone number or position stays null. */
    method CreateMember(data: Member) returns (r: Result<int, Refusal>)
      requires Valid()
      requires data.organization in organizations
      modifies this
      ensures Valid()
      ensures organizations == old(organizations)
      ensures data.username in Usernames(old(accounts)) ==>
        r == Failure(Duplicate("username")) && accounts == old(accounts) && profiles == old(profiles)
      ensures data.username !in Usernames(old(accounts)) ==>
        r == Success(old(nextId) + 1) &&
        accounts == old(accounts)[old(nextId) :=
          Account(data.username, data.email,
            if data.password.Some? then data.password.value else DefaultMemberPassword,
            data.firstName, data.lastName, true)] &&
        profiles == old(profiles)[old(nextId) + 1 :=
          Profile(old(nextId), data.organization, data.phoneNumber, data.position)]
    {
      var password := if data.password.Some? then data.password.value else DefaultMemberPassword;
      if data.username in Usernames(accounts) {
        return Failure(Duplicate("username"));
      }
      var accountId := nextId;
      accounts := accounts[accountId := Account(data.username, data.email, password, data.firstName, data.lastName, true)];
      nextId := nextId + 1;

      var profileId := nextId;
      profiles := profiles[profileId := Profile(accountId, data.organization, data.phoneNumber, data.position)];
      nextId := nextId + 1;
      r := Success(profileId);
    }

    /** `OrganizationUserCreateUpdateSerializer.update`: the member's user takes
        exactly the provided attributes, and the password only when one is
        supplied and non-empty; then the profile takes exactly its provided
        attributes. Saving a username that another user holds is refused by
        the database, and then nothing is written. */
    method UpdateMember(id: int, userData: map<AccountField, string>, password: Option<string>,
        data: map<ProfileField, ProfileValue>) returns (r: Result<int, Refusal>)
      requires Valid()
      requires id in profiles
      requires WellTyped(data)
      requires OrganizationRef in data ==> data[OrganizationRef].id in organizations
      modifies this
      ensures Valid()
      ensures organizations == old(organizations) && nextId == old(nextId)
      ensures var accountId := old(profiles)[id].account;
        var user := WithPassword(OverlayAccount(old(accounts)[accountId], userData), password);
        HeldByOther(old(accounts), accountId, user.username) ==>
          r == Failure(Duplicate("username")) && accounts == old(accounts) && profiles == old(profiles)
      ensures var accountId := old(profiles)[id].account;
        var user := WithPassword(OverlayAccount(old(accounts)[accountId], userData), password);
        !HeldByOther(old(accounts), accountId, user.username) ==>
          r == Success(id) && accounts == old(accounts)[accountId := user] &&
          profiles == old(profiles)[id := OverlayProfile(old(profiles)[id], data)]
    {
      var accountId := profiles[id].account;
      var user := SetAccountAttributes(accounts[accountId], userData);
      if password.Some? && password.value != "" {
        user := user.(password := password.value);
      }
      if HeldByOther(accounts, accountId, user.username) {
        return Failure(Duplicate("username"));
      }
      PutAccount(accounts, accountId, user);
      accounts := accounts[accountId := user];

      var profile := SetProfileAttributes(profiles[id], data);
      profiles := profiles[id := profile];
      r := Success(id);
    }
  }
}
