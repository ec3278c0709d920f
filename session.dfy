/**
 * Whole-client scenarios: the console's handlers composed with the request
 * interceptor and with the registration form, each run on a fresh console.
 */
module Session {
  import opened Wrappers
  import opened Json
  import Api
  import App
  import UserRegistrationModal

  /** The headers a request for `e` carries when browser storage holds `stored`. */
  method SendWith(stored: Option<string>, e: Api.Endpoint) returns (headers: map<string, string>)
    ensures Api.HasToken(stored) ==> headers == Api.DefaultHeaders()[Api.Authorization := "Token " + stored.value]
    ensures !Api.HasToken(stored) ==> headers == Api.DefaultHeaders()
  {
    var config := new Api.RequestConfig(Api.RequestOf(e));
    var sent := Api.Intercept(config, stored);
    headers := sent.headers;
  }

  /** After a successful login, every request carries `Token <token>`; a
      reply without a token leaves the text "undefined" in storage, so
      requests then carry `Token undefined`. */
  method LoginThenRequest(stored: Option<string>, data: App.AuthData, e: Api.Endpoint)
      returns (headers: map<string, string>)
    ensures data.token.Some? && data.token.value != "" ==>
      headers == Api.DefaultHeaders()[Api.Authorization := "Token " + data.token.value]
    ensures data.token.None? ==>
      headers == Api.DefaultHeaders()[Api.Authorization := "Token undefined"]
  {
    var console := new App.Console(stored);
    var _, _ := console.HandleLogin(App.Ok(data));
    assert |App.StoredText(None)| == 9;
    assert "Token " + "undefined" == "Token undefined";
    headers := SendWith(console.storedToken, e);
  }

  /** After logging out, whatever the server answered and whoever was signed
      in, requests carry no `Authorization` header. */
  method LogoutThenRequest(stored: Option<string>, data: App.AuthData, reply: App.Reply<Json>, e: Api.Endpoint)
      returns (headers: map<string, string>)
    ensures headers == Api.DefaultHeaders()
    ensures Api.Authorization !in headers
  {
    var console := new App.Console(stored);
    var _, _ := console.HandleLogin(App.Ok(data));
    var _, _ := console.HandleLogout(reply);
    headers := SendWith(console.storedToken, e);
  }

  /** Creating an organization from the landing page signs nobody in: the
      console stays unauthenticated on the landing view and the next request
      carries no `Authorization` header. */
  method OrgSignupThenRequest(reply: App.Reply<Json>, e: Api.Endpoint)
      returns (authenticated: bool, view: App.View, headers: map<string, string>)
    ensures !authenticated && view == App.Main
    ensures headers == Api.DefaultHeaders()
  {
    var console := new App.Console(None);
    console.HandleOrganizationClick();
    var _, _ := console.HandleOrgSignup(reply);
    authenticated := console.isAuthenticated;
    view := console.currentView;
    headers := SendWith(console.storedToken, e);
  }

  /** A stored token that the profile request rejects is dropped at startup,
      so later requests go out without it. */
  method StaleTokenDropped(token: string, body: Json, e: Api.Endpoint)
      returns (authenticated: bool, headers: map<string, string>)
    requires token != ""
    ensures !authenticated
    ensures headers == Api.DefaultHeaders()
  {
    var console := new App.Console(Some(token));
    var _ := console.CheckAuthStatus(App.Fail(body));
    authenticated := console.isAuthenticated;
    headers := SendWith(console.storedToken, e);
  }

  /** The registration form wired to the console: the form's `onSubmit` is
      the console's handler, whose outcome is passed to the form's submit;
      since the handler catches every failure it never rethrows, so an
      acceptable draft is cleared even when the server refuses it, and the
      alert is the server's message extracted from the reply. The scenario
      starts from a draft `d` the user has already typed: it is set directly
      rather than by one `Change` per field. */
  method RegisterRefused(d: UserRegistrationModal.Draft, body: Json)
      returns (submitted: Option<UserRegistrationModal.RegistrationPayload>, alert: string,
               draftAfter: UserRegistrationModal.Draft, loading: bool)
    requires UserRegistrationModal.Acceptable(d)
    ensures submitted == Some(UserRegistrationModal.Payload(d))
    ensures alert == App.ErrorMessage(body, App.RegistrationFailed)
    ensures draftAfter == UserRegistrationModal.EmptyDraft && !loading
  {
    var console := new App.Console(None);
    console.HandleUserRegistrationClick();
    var form := new UserRegistrationModal.UserRegistrationForm();
    form.formData := d;
    var _, message, _, rethrows := console.HandleUserRegistration(App.Fail(body));
    submitted := form.Submit(rethrows);
    alert := message;
    draftAfter := form.formData;
    loading := form.loading;
  }
}
