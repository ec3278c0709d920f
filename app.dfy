/**
 * The single-page console: which view is shown, which tab and which modals
 * are open, who is signed in, the token kept in browser storage, and the
 * handlers that move between these states. Each handler that talks to the
 * server takes the server's reply as a parameter and returns the request it
 * issued and the text it alerts, if any.
 */
module App {
  import opened Wrappers
  import opened Json
  import Api

  datatype View = Main | OrganizationsView | UsersView

  datatype Tab = OrganizationsTab | UsersTab

  /** An organization as listed by the server (display-only fields left out). */
  datatype Organization = Organization(id: int, name: string, address: string)

  /** A user as listed by the server (display-only fields left out). */
  datatype User = User(
    id: int,
    username: string,
    email: string,
    firstName: string,
    lastName: string,
    organization: int,
    position: Option<string>,
    phoneNumber: Option<string>)

  /** The outcome of one request: the decoded body of a 2xx reply, or the
      `error.response?.data` of a failure (`JNull` when there is no response). */
  datatype Reply<T> = Ok(data: T) | Fail(body: Json)

  /** The body of a login or signup reply: its `token`, `None` when the body
      has no such key, and its `user`. */
  datatype AuthData = AuthData(token: Option<string>, user: Json)

  const LoginSucceeded: string := "Login successful!"
  const LoginFailed: string := "Login failed. Please try again."
  const SignupSucceeded: string := "Registration successful!"
  const SignupFailed: string := "Registration failed. Please try again."
  const OrgSignupSucceeded: string := "Organization created successfully! Please login to continue."
  const OrgSignupFailed: string := "Organization creation failed. Please try again."
  const RegistrationSucceeded: string := "User registered successfully to organization!"
  const RegistrationFailed: string := "User registration failed. Please try again."
  const LoggedOut: string := "Logged out successfully!"
  const OrganizationSaveFailed: string := "Error saving organization. Please try again."
  const UserSaveFailed: string := "Error saving user. Please try again."

  /** `localStorage.setItem(key, value)` stores `String(value)`: a missing
      token is stored as the text "undefined". A JSON `null` token would be
      stored as "null"; the server's login and signup replies always carry a
      token string, so `None` stands for the missing key only. */
  function StoredText(token: Option<string>): (r: string)
    ensures token.Some? ==> r == token.value
    ensures token.None? ==> r == "undefined"
  {
    if token.Some? then token.value else "undefined"
  }

  /** The alert after a failed organization signup or user registration
      (App.tsx 216-228 and 244-256): with no response body, the default; a
      truthy `detail` wins; any other object or array body gives its values,
      flattened one level, joined with ", "; a string body is shown as is;
      a number or boolean body gives the default. */
  function ErrorMessage(data: Json, default: string): (r: string)
    ensures !Truthy(data) ==> r == default
    ensures data.JObj? && Truthy(Get(data.fields, "detail")) ==> r == ToJsString(Get(data.fields, "detail"))
    ensures data.JObj? && !Truthy(Get(data.fields, "detail")) ==>
      r == Join(ElementStrings(Flat(Values(data))), ", ")
    ensures data.JArr? ==> r == Join(ElementStrings(Flat(data.items)), ", ")
    ensures data.JStr? && data.s != "" ==> r == data.s
    ensures data.JNum? || data.JBool? ==> r == default
  {
    if !Truthy(data) then default
    else if data.JObj? && Truthy(Get(data.fields, "detail")) then ToJsString(Get(data.fields, "detail"))
    else if data.JObj? || data.JArr? then Join(ElementStrings(Flat(Values(data))), ", ")
    else if data.JStr? then data.s
    else default
  }

  /** `error.response?.data?.detail || default`, the alert after a failed
      login or signup. */
  function DetailOr(data: Json, default: string): (r: string)
    ensures data.JObj? && Truthy(Get(data.fields, "detail")) ==> r == ToJsString(Get(data.fields, "detail"))
    ensures !(data.JObj? && Truthy(Get(data.fields, "detail"))) ==> r == default
  {
    if data.JObj? && Truthy(Get(data.fields, "detail")) then ToJsString(Get(data.fields, "detail")) else default
  }

  /** A serializer's validation errors: an object whose every value is a list
      of message strings. */
  predicate IsValidationBody(fields: seq<(string, Json)>) {
    forall i :: 0 <= i < |fields| ==> IsMessageList(fields[i].1)
  }

  predicate IsMessageList(v: Json) {
    v.JArr? && forall j :: 0 <= j < |v.items| ==> v.items[j].JStr?
  }

  /** The messages of a list of message strings. */
  function MessagesOf(v: Json): seq<string>
    requires IsMessageList(v)
  {
    seq(|v.items|, j requires 0 <= j < |v.items| => v.items[j].s)
  }

  /** All messages of a sequence of message lists, in order. */
  function AllMessages(values: seq<Json>): seq<string>
    requires forall i :: 0 <= i < |values| ==> IsMessageList(values[i])
  {
    if values == [] then [] else MessagesOf(values[0]) + AllMessages(values[1..])
  }

  /** Flattening message lists and printing each element yields exactly their
      messages, in order. */
  lemma {:induction false} FlatMessageLists(values: seq<Json>)
    requires forall i :: 0 <= i < |values| ==> IsMessageList(values[i])
    ensures ElementStrings(Flat(values)) == AllMessages(values)
  {
    if values != [] {
      FlatMessageLists(values[1..]);
      var head := values[0].items;
      var rest := Flat(values[1..]);
      assert Flat(values) == head + rest;
      assert ElementStrings(head + rest) == ElementStrings(head) + ElementStrings(rest);
      assert forall j :: 0 <= j < |head| ==> ElementString(head[j]) == head[j].s;
      assert ElementStrings(head) == MessagesOf(values[0]);
    }
  }

  /** A serializer's validation errors without a `detail` key are alerted as
      every message of every field, in field order, joined with ", ". */
  lemma ValidationErrorsJoined(fields: seq<(string, Json)>, default: string)
    requires IsValidationBody(fields)
    requires !Truthy(Get(fields, "detail"))
    ensures ErrorMessage(JObj(fields), default) == Join(AllMessages(Values(JObj(fields))), ", ")
  {
    FlatMessageLists(Values(JObj(fields)));
  }

  /** The login endpoint reports a refused login as `non_field_errors`, never
      as `detail`, so the login alert always falls back to its default; the
      registration alert shows the serializer's own message. */
  lemma ServerMessagesShown(msg: string)
    requires msg != ""
    ensures DetailOr(JObj([("non_field_errors", JArr([JStr(msg)]))]), LoginFailed) == LoginFailed
    ensures ErrorMessage(JObj([("username", JArr([JStr(msg)]))]), RegistrationFailed) == msg
  {
    var refused := [("non_field_errors", JArr([JStr(msg)]))];
    assert "non_field_errors"[0] != "detail"[0];
    assert refused[1..] == [];
    assert Get(refused, "detail") == JNull;
    assert "username"[0] != "detail"[0];
    var fields := [("username", JArr([JStr(msg)]))];
    ValidationErrorsJoined(fields, RegistrationFailed);
    assert AllMessages(Values(JObj(fields))) == [msg] by {
      assert Values(JObj(fields)) == [JArr([JStr(msg)])];
      assert AllMessages([JArr([JStr(msg)])]) == MessagesOf(JArr([JStr(msg)])) + AllMessages([]);
    }
  }

  /** Every field of the console's state, for stating whole-state effects. */
  datatype Snapshot = Snapshot(
    organizations: seq<Organization>,
    users: seq<User>,
    loading: bool,
    currentView: View,
    activeTab: Tab,
    showOrgModal: bool,
    showUserModal: bool,
    editingOrg: Option<Organization>,
    editingUser: Option<User>,
    isAuthenticated: bool,
    authUser: Json,
    showLoginModal: bool,
    showSignupModal: bool,
    showOrgSignupModal: bool,
    showUserRegistrationModal: bool,
    storedToken: Option<string>)

  class Console {
    var organizations: seq<Organization>
    var users: seq<User>
    var loading: bool
    var currentView: View
    var activeTab: Tab
    var showOrgModal: bool
    var showUserModal: bool
    var editingOrg: Option<Organization>
    var editingUser: Option<User>
    var isAuthenticated: bool
    /** `JNull` when nobody is signed in. */
    var authUser: Json
    var showLoginModal: bool
    var showSignupModal: bool
    var showOrgSignupModal: bool
    var showUserRegistrationModal: bool
    /** The `authToken` entry of browser storage; `None` when absent. */
    var storedToken: Option<string>

    function State(): Snapshot
      reads this
    {
      Snapshot(organizations, users, loading, currentView, activeTab, showOrgModal, showUserModal,
        editingOrg, editingUser, isAuthenticated, authUser, showLoginModal, showSignupModal,
        showOrgSignupModal, showUserRegistrationModal, storedToken)
    }

    /** Being signed in always comes with a stored token, and nobody signed in
        means no signed-in user. */
    predicate Valid()
      reads this
    {
      (isAuthenticated ==> storedToken.Some?) && (!isAuthenticated ==> authUser == JNull)
    }

    /** The first render: empty lists while loading, the landing view with the
        organizations tab, every modal closed, nobody signed in; browser
        storage holds whatever an earlier visit left there. */
    constructor (stored: Option<string>)
      ensures State() == Snapshot([], [], true, Main, OrganizationsTab, false, false, None, None,
        false, JNull, false, false, false, false, stored)
      ensures Valid()
    {
      organizations := [];
      users := [];
      loading := true;
      currentView := Main;
      activeTab := OrganizationsTab;
      showOrgModal := false;
      showUserModal := false;
      editingOrg := None;
      editingUser := None;
      isAuthenticated := false;
      authUser := JNull;
      showLoginModal := false;
      showSignupModal := false;
      showOrgSignupModal := false;
      showUserRegistrationModal := false;
      storedToken := stored;
    }

    /** `handleOrganizationClick`: a signed-in visitor goes to the organizations
        view; anyone else only gets the organization signup modal, and the
        view stays as it was. */
    method HandleOrganizationClick()
      modifies this
      requires Valid()
      ensures Valid()
      ensures old(isAuthenticated) ==> State() == old(State()).(currentView := OrganizationsView)
      ensures !old(isAuthenticated) ==> State() == old(State()).(showOrgSignupModal := true)
    {
      if isAuthenticated {
        currentView := OrganizationsView;
      } else {
        showOrgSignupModal := true;
      }
    }

    /** `handleUsersClick`: the users view, with no sign-in check. */
    method HandleUsersClick()
      modifies this
      requires Valid()
      ensures Valid()
      ensures State() == old(State()).(currentView := UsersView)
    {
      currentView := UsersView;
    }

    /** `handleUserRegistrationClick`: opens the registration modal. */
    method HandleUserRegistrationClick()
      modifies this
      requires Valid()
      ensures Valid()
      ensures State() == old(State()).(showUserRegistrationModal := true)
    {
      showUserRegistrationModal := true;
    }

    /** `handleBackToMain`: the landing view, and the organizations tab for the
        next visit. */
    method HandleBackToMain()
      modifies this
      requires Valid()
      ensures Valid()
      ensures State() == old(State()).(currentView := Main, activeTab := OrganizationsTab)
    {
      currentView := Main;
      activeTab := OrganizationsTab;
    }

    /** The tab buttons: `setActiveTab(tab)`. */
    method SelectTab(tab: Tab)
      modifies this
      requires Valid()
      ensures Valid()
      ensures State() == old(State()).(activeTab := tab)
    {
      activeTab := tab;
    }

    /** `checkAuthStatus`. Without a (non-empty) stored token nothing happens
        and no request is made. Otherwise the profile is requested: on success
        its body becomes the signed-in user; on failure the token is removed
        and nobody is signed in. */
    method CheckAuthStatus(profile: Reply<Json>) returns (request: Option<Api.Request>)
      modifies this
      requires Valid()
      ensures Valid()
      ensures !Api.HasToken(old(storedToken)) ==> request == None && State() == old(State())
      ensures Api.HasToken(old(storedToken)) ==> request == Some(Api.RequestOf(Api.Profile))
      ensures Api.HasToken(old(storedToken)) && profile.Ok? ==>
        State() == old(State()).(authUser := profile.data, isAuthenticated := true)
      ensures Api.HasToken(old(storedToken)) && profile.Fail? ==>
        State() == old(State()).(storedToken := None, isAuthenticated := false, authUser := JNull)
    {
      if !Api.HasToken(storedToken) {
        return None;
      }
      request := Some(Api.RequestOf(Api.Profile));
      if profile.Ok? {
        authUser := profile.data;
        isAuthenticated := true;
      } else {
        storedToken := None;
        isAuthenticated := false;
        authUser := JNull;
      }
    }

    /** `fetchData`: both lists are requested; when both replies arrive they
        replace the lists, and when either fails the lists stay; loading ends
        either way. `lists` is `None` when a request failed. */
    method FetchData(lists: Option<(seq<Organization>, seq<User>)>) returns (requests: seq<Api.Request>)
      modifies this
      requires Valid()
      ensures Valid()
      ensures requests == [Api.RequestOf(Api.ListOrganizations), Api.RequestOf(Api.ListUsers)]
      ensures lists.Some? ==>
        State() == old(State()).(organizations := lists.value.0, users := lists.value.1, loading := false)
      ensures lists.None? ==> State() == old(State()).(loading := false)
    {
      loading := true;
      requests := [Api.RequestOf(Api.ListOrganizations), Api.RequestOf(Api.ListUsers)];
      if lists.Some? {
        organizations := lists.value.0;
        users := lists.value.1;
      }
      loading := false;
    }

    /** `handleOrgSubmit`: updates the organization being edited, or creates
        one when none is. Success closes the modal, forgets the edited
        organization and asks for a refresh; failure alerts and changes
        nothing. */
    method HandleOrgSubmit(reply: Reply<Json>) returns (request: Api.Request, alert: Option<string>, refresh: bool)
      modifies this
      requires Valid()
      ensures Valid()
      ensures old(editingOrg).Some? ==> request == Api.RequestOf(Api.UpdateOrganization(old(editingOrg).value.id))
      ensures old(editingOrg).None? ==> request == Api.RequestOf(Api.CreateOrganization)
      ensures reply.Ok? ==>
        State() == old(State()).(showOrgModal := false, editingOrg := None) && alert == None && refresh
      ensures reply.Fail? ==>
        State() == old(State()) && alert == Some(OrganizationSaveFailed) && !refresh
    {
      if editingOrg.Some? {
        request := Api.RequestOf(Api.UpdateOrganization(editingOrg.value.id));
      } else {
        request := Api.RequestOf(Api.CreateOrganization);
      }
      if reply.Ok? {
        refresh := true;
        showOrgModal := false;
        editingOrg := None;
        alert := None;
      } else {
        refresh := false;
        alert := Some(OrganizationSaveFailed);
      }
    }

    /** `handleUserSubmit`: the same decision for users. */
    method HandleUserSubmit(reply: Reply<Json>) returns (request: Api.Request, alert: Option<string>, refresh: bool)
      modifies this
      requires Valid()
      ensures Valid()
      ensures old(editingUser).Some? ==> request == Api.RequestOf(Api.UpdateUser(old(editingUser).value.id))
      ensures old(editingUser).None? ==> request == Api.RequestOf(Api.CreateUser)
      ensures reply.Ok? ==>
        State() == old(State()).(showUserModal := false, editingUser := None) && alert == None && refresh
      ensures reply.Fail? ==>
        State() == old(State()) && alert == Some(UserSaveFailed) && !refresh
    {
      if editingUser.Some? {
        request := Api.RequestOf(Api.UpdateUser(editingUser.value.id));
      } else {
        request := Api.RequestOf(Api.CreateUser);
      }
      if reply.Ok? {
        refresh := true;
        showUserModal := false;
        editingUser := None;
        alert := None;
      } else {
        refresh := false;
        alert := Some(UserSaveFailed);
      }
    }

    /** `handleDeleteOrg`: only a confirmed deletion is requested, and only a
        successful one refreshes; the console's state never changes here. */
    method HandleDeleteOrg(id: int, confirmed: bool, reply: Reply<Json>)
        returns (request: Option<Api.Request>, refresh: bool)
      modifies this
      requires Valid()
      ensures Valid()
      ensures State() == old(State())
      ensures request == if confirmed then Some(Api.RequestOf(Api.DeleteOrganization(id))) else None
      ensures refresh <==> confirmed && reply.Ok?
    {
      request := None;
      refresh := false;
      if confirmed {
        request := Some(Api.RequestOf(Api.DeleteOrganization(id)));
        refresh := reply.Ok?;
      }
    }

    /** `handleDeleteUser`: the same for users. */
    method HandleDeleteUser(id: int, confirmed: bool, reply: Reply<Json>)
        returns (request: Option<Api.Request>, refresh: bool)
      modifies this
      requires Valid()
      ensures Valid()
      ensures State() == old(State())
      ensures request == if confirmed then Some(Api.RequestOf(Api.DeleteUser(id))) else None
      ensures refresh <==> confirmed && reply.Ok?
    {
      request := None;
      refresh := false;
      if confirmed {
        request := Some(Api.RequestOf(Api.DeleteUser(id)));
        refresh := reply.Ok?;
      }
    }

    /** `handleLogin`: success stores the returned token (as text), signs the
        returned user in, closes the login modal and shows the organizations
        view; failure alerts the reply's `detail` or the default and changes
        nothing. */
    method HandleLogin(reply: Reply<AuthData>) returns (request: Api.Request, alert: string)
      modifies this
      requires Valid()
      ensures Valid()
      ensures request == Api.RequestOf(Api.Login)
      ensures reply.Ok? ==>
        State() == old(State()).(storedToken := Some(StoredText(reply.data.token)),
          authUser := reply.data.user, isAuthenticated := true, showLoginModal := false,
          currentView := OrganizationsView)
        && alert == LoginSucceeded
      ensures reply.Fail? ==> State() == old(State()) && alert == DetailOr(reply.body, LoginFailed)
    {
      request := Api.RequestOf(Api.Login);
      if reply.Ok? {
        storedToken := Some(StoredText(reply.data.token));
        authUser := reply.data.user;
        isAuthenticated := true;
        showLoginModal := false;
        currentView := OrganizationsView;
        alert := LoginSucceeded;
      } else {
        alert := DetailOr(reply.body, LoginFailed);
      }
    }

    /** `handleSignup`: as login, through the signup endpoint and its modal. */
    method HandleSignup(reply: Reply<AuthData>) returns (request: Api.Request, alert: string)
      modifies this
      requires Valid()
      ensures Valid()
      ensures request == Api.RequestOf(Api.Signup)
      ensures reply.Ok? ==>
        State() == old(State()).(storedToken := Some(StoredText(reply.data.token)),
          authUser := reply.data.user, isAuthenticated := true, showSignupModal := false,
          currentView := OrganizationsView)
        && alert == SignupSucceeded
      ensures reply.Fail? ==> State() == old(State()) && alert == DetailOr(reply.body, SignupFailed)
    {
      request := Api.RequestOf(Api.Signup);
      if reply.Ok? {
        storedToken := Some(StoredText(reply.data.token));
        authUser := reply.data.user;
        isAuthenticated := true;
        showSignupModal := false;
        currentView := OrganizationsView;
        alert := SignupSucceeded;
      } else {
        alert := DetailOr(reply.body, SignupFailed);
      }
    }

    /** `handleOrgSignup`: success only closes the organization signup modal,
        so creating an organization never signs anyone in; failure alerts the
        extracted error message. */
    method HandleOrgSignup(reply: Reply<Json>) returns (request: Api.Request, alert: string)
      modifies this
      requires Valid()
      ensures Valid()
      ensures request == Api.RequestOf(Api.Signup)
      ensures reply.Ok? ==> State() == old(State()).(showOrgSignupModal := false) && alert == OrgSignupSucceeded
      ensures reply.Fail? ==> State() == old(State()) && alert == ErrorMessage(reply.body, OrgSignupFailed)
      ensures isAuthenticated == old(isAuthenticated) && storedToken == old(storedToken)
      ensures currentView == old(currentView)
    {
      request := Api.RequestOf(Api.Signup);
      if reply.Ok? {
        showOrgSignupModal := false;
        alert := OrgSignupSucceeded;
      } else {
        alert := ErrorMessage(reply.body, OrgSignupFailed);
      }
    }

    /** `handleUserRegistration`: success closes the registration modal and
        asks for a refresh; failure alerts the extracted error message. The
        handler catches every failure, so it never rethrows to the form's
        `onSubmit`. */
    method HandleUserRegistration(reply: Reply<Json>)
        returns (request: Api.Request, alert: string, refresh: bool, rethrows: bool)
      modifies this
      requires Valid()
      ensures Valid()
      ensures request == Api.RequestOf(Api.UserRegistration)
      ensures !rethrows
      ensures reply.Ok? ==>
        State() == old(State()).(showUserRegistrationModal := false) && alert == RegistrationSucceeded && refresh
      ensures reply.Fail? ==>
        State() == old(State()) && alert == ErrorMessage(reply.body, RegistrationFailed) && !refresh
    {
      request := Api.RequestOf(Api.UserRegistration);
      rethrows := false;
      if reply.Ok? {
        showUserRegistrationModal := false;
        alert := RegistrationSucceeded;
        refresh := true;
      } else {
        alert := ErrorMessage(reply.body, RegistrationFailed);
        refresh := false;
      }
    }

    /** `handleLogout`: whatever the server answers, the token is removed,
        nobody is signed in and the landing view is shown. */
    method HandleLogout(reply: Reply<Json>) returns (request: Api.Request, alert: string)
      modifies this
      requires Valid()
      ensures Valid()
      ensures request == Api.RequestOf(Api.Logout)
      ensures State() == old(State()).(storedToken := None, isAuthenticated := false,
        authUser := JNull, currentView := Main)
      ensures alert == LoggedOut
    {
      request := Api.RequestOf(Api.Logout);
      storedToken := None;
      isAuthenticated := false;
      authUser := JNull;
      currentView := Main;
      alert := LoggedOut;
    }

    /** The login modal's `onClose`. */
    method CloseLogin()
      modifies this
      requires Valid()
      ensures Valid()
      ensures State() == old(State()).(showLoginModal := false)
    {
      showLoginModal := false;
    }

    /** The login modal's `onSwitchToSignup`. */
    method SwitchLoginToSignup()
      modifies this
      requires Valid()
      ensures Valid()
      ensures State() == old(State()).(showLoginModal := false, showSignupModal := true)
    {
      showLoginModal := false;
      showSignupModal := true;
    }

    /** The signup modal's `onClose`. */
    method CloseSignup()
      modifies this
      requires Valid()
      ensures Valid()
      ensures State() == old(State()).(showSignupModal := false)
    {
      showSignupModal := false;
    }

    /** The signup modal's `onSwitchToLogin`. */
    method SwitchSignupToLogin()
      modifies this
      requires Valid()
      ensures Valid()
      ensures State() == old(State()).(showSignupModal := false, showLoginModal := true)
    {
      showSignupModal := false;
      showLoginModal := true;
    }

    /** The organization signup modal's `onClose`. */
    method CloseOrgSignup()
      modifies this
      requires Valid()
      ensures Valid()
      ensures State() == old(State()).(showOrgSignupModal := false)
    {
      showOrgSignupModal := false;
    }

    /** The organization signup modal's `onSwitchToLogin`. */
    method SwitchOrgSignupToLogin()
      modifies this
      requires Valid()
      ensures Valid()
      ensures State() == old(State()).(showOrgSignupModal := false, showLoginModal := true)
    {
      showOrgSignupModal := false;
      showLoginModal := true;
    }

    /** The registration modal's `onClose`. */
    method CloseUserRegistration()
      modifies this
      requires Valid()
      ensures Valid()
      ensures State() == old(State()).(showUserRegistrationModal := false)
    {
      showUserRegistrationModal := false;
    }

    /** The "add" (`None`) and "edit" buttons of the organizations tab. */
    method OpenOrgModal(org: Option<Organization>)
      modifies this
      requires Valid()
      ensures Valid()
      ensures State() == old(State()).(editingOrg := org, showOrgModal := true)
    {
      editingOrg := org;
      showOrgModal := true;
    }

    /** The organization modal's `onClose`: closes it and forgets the edited organization. */
    method CloseOrgModal()
      modifies this
      requires Valid()
      ensures Valid()
      ensures State() == old(State()).(showOrgModal := false, editingOrg := None)
    {
      showOrgModal := false;
      editingOrg := None;
    }

    /** The "add" (`None`) and "edit" buttons of the users lists. */
    method OpenUserModal(user: Option<User>)
      modifies this
      requires Valid()
      ensures Valid()
      ensures State() == old(State()).(editingUser := user, showUserModal := true)
    {
      editingUser := user;
      showUserModal := true;
    }

    /** The user modal's `onClose`: closes it and forgets the edited user. */
    method CloseUserModal()
      modifies this
      requires Valid()
      ensures Valid()
      ensures State() == old(State()).(showUserModal := false, editingUser := None)
    {
      showUserModal := false;
      editingUser := None;
    }
  }
}
