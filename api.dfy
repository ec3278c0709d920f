/**
 * The HTTP client facade: the base URL, the default headers, the request
 * interceptor that attaches the stored session token, and the route of
 * every API operation.
 */
module Api {
  import opened Wrappers
  import opened Text

  const ApiBaseUrl: string := "http://localhost:8080/api"
  const ContentType: string := "Content-Type"
  const JsonMediaType: string := "application/json"
  const Authorization: string := "Authorization"

  /** Headers every request starts with. */
  function DefaultHeaders(): map<string, string> {
    map[ContentType := JsonMediaType]
  }

  datatype HttpMethod = Get | Post | Put | Delete

  /** A request as the client issues it: a method and a path relative to the base URL. */
  datatype Request = Request(verb: HttpMethod, path: string)

  /** The absolute URL a path resolves to. */
  function Url(path: string): string {
    ApiBaseUrl + path
  }

  const OrganizationsPrefix: string := "/organizations/"
  const UsersPrefix: string := "/users/"

  function OrganizationPath(id: int): string {
    OrganizationsPrefix + IntToString(id) + "/"
  }

  function UserPath(id: int): string {
    UsersPrefix + IntToString(id) + "/"
  }

  function OrganizationUsersPath(orgId: int): string {
    OrganizationsPrefix + IntToString(orgId) + "/users/"
  }

  /** Every operation of `organizationsApi`, `usersApi` and `authApi`. */
  datatype Endpoint =
    | ListOrganizations
    | GetOrganization(id: int)
    | CreateOrganization
    | UpdateOrganization(id: int)
    | DeleteOrganization(id: int)
    | ListUsers
    | GetUser(id: int)
    | CreateUser
    | UpdateUser(id: int)
    | DeleteUser(id: int)
    | OrganizationUsers(orgId: int)
    | Signup
    | Login
    | Logout
    | Profile
    | UpdateProfile
    | UserRegistration
    | OrganizationsList

  /** The method and path each operation uses. */
  function RequestOf(e: Endpoint): Request {
    match e
    case ListOrganizations => Request(Get, OrganizationsPrefix)
    case GetOrganization(id) => Request(Get, OrganizationPath(id))
    case CreateOrganization => Request(Post, OrganizationsPrefix)
    case UpdateOrganization(id) => Request(Put, OrganizationPath(id))
    case DeleteOrganization(id) => Request(Delete, OrganizationPath(id))
    case ListUsers => Request(Get, UsersPrefix)
    case GetUser(id) => Request(Get, UserPath(id))
    case CreateUser => Request(Post, UsersPrefix)
    case UpdateUser(id) => Request(Put, UserPath(id))
    case DeleteUser(id) => Request(Delete, UserPath(id))
    case OrganizationUsers(orgId) => Request(Get, OrganizationUsersPath(orgId))
    case Signup => Request(Post, "/auth/signup/")
    case Login => Request(Post, "/auth/login/")
    case Logout => Request(Post, "/auth/logout/")
    case Profile => Request(Get, "/auth/profile/")
    case UpdateProfile => Request(Put, "/auth/update-profile/")
    case UserRegistration => Request(Post, "/auth/user-registration/")
    case OrganizationsList => Request(Get, "/organizations-list/")
  }

  /** Every route begins and ends with '/', and its URL extends the base URL. */
  lemma RoutesAreSlashDelimited(e: Endpoint)
    ensures var p := RequestOf(e).path;
      |p| >= 2 && p[0] == '/' && p[|p| - 1] == '/' && Url(p)[..|ApiBaseUrl|] == ApiBaseUrl
  {
  }

  /** The id part of an id route sits between the prefix and the suffix. */
  lemma IdSegment(prefix: string, id: int, suffix: string)
    ensures (prefix + IntToString(id) + suffix)[|prefix|..|prefix| + |IntToString(id)|] == IntToString(id)
  {
  }

  /** Two id routes with the same prefix and suffix name the same id. */
  lemma IdRouteInjective(prefix: string, a: int, b: int, suffix: string)
    requires prefix + IntToString(a) + suffix == prefix + IntToString(b) + suffix
    ensures a == b
  {
    IdSegment(prefix, a, suffix);
    IdSegment(prefix, b, suffix);
    IntToStringInjective(a, b);
  }

  /** An organization's own path differs from its users path. */
  lemma OrganizationPathNotUsersPath(a: int, b: int)
    ensures OrganizationPath(a) != OrganizationUsersPath(b)
  {
    var p, q := OrganizationPath(a), OrganizationUsersPath(b);
    var sa, sb := IntToString(a), IntToString(b);
    if p == q {
      var k := |OrganizationsPrefix| + |sb|;
      assert |sa| == |sb| + 6;
      assert q[k] == '/';
      assert p[k] == sa[|sb|];
      IntToStringHasNoSlash(a);
    }
  }

  predicate HasId(e: Endpoint) {
    e.GetOrganization? || e.UpdateOrganization? || e.DeleteOrganization? ||
    e.GetUser? || e.UpdateUser? || e.DeleteUser? || e.OrganizationUsers?
  }

  /** The path of an operation without an id is a fixed string; no two of them
      share a method and a path. */
  lemma FixedRoutesInjective(e1: Endpoint, e2: Endpoint)
    requires !HasId(e1) && !HasId(e2)
    requires RequestOf(e1) == RequestOf(e2)
    ensures e1 == e2
  {
    match e1
    case ListOrganizations =>
    case CreateOrganization =>
    case ListUsers =>
    case CreateUser =>
    case Signup =>
    case Login =>
    case Logout =>
    case Profile =>
    case UpdateProfile =>
    case UserRegistration =>
    case OrganizationsList =>
  }

  /** A GET on an organization id is no other operation. */
  lemma GetOrganizationInjective(a: int, e2: Endpoint)
    requires RequestOf(GetOrganization(a)) == RequestOf(e2)
    ensures e2 == GetOrganization(a)
  {
    var p := OrganizationPath(a);
    assert p[1] == 'o' && p[14] == '/';
    match e2
    case GetOrganization(b) => IdRouteInjective(OrganizationsPrefix, a, b, "/");
    case OrganizationUsers(b) => OrganizationPathNotUsersPath(a, b);
  }

  /** A GET on an organization's users is no other operation. */
  lemma OrganizationUsersInjective(a: int, e2: Endpoint)
    requires RequestOf(OrganizationUsers(a)) == RequestOf(e2)
    ensures e2 == OrganizationUsers(a)
  {
    var p := OrganizationUsersPath(a);
    assert p[1] == 'o' && p[14] == '/';
    match e2
    case OrganizationUsers(b) => IdRouteInjective(OrganizationsPrefix, a, b, "/users/");
    case GetOrganization(b) => OrganizationPathNotUsersPath(b, a);
  }

  /** A GET on a user id is no other operation. */
  lemma GetUserInjective(a: int, e2: Endpoint)
    requires RequestOf(GetUser(a)) == RequestOf(e2)
    ensures e2 == GetUser(a)
  {
    var p := UserPath(a);
    assert p[1] == 'u';
    match e2
    case GetUser(b) => IdRouteInjective(UsersPrefix, a, b, "/");
  }

  /** PUT and DELETE on an id are no other operation. */
  lemma UpdateDeleteInjective(e1: Endpoint, e2: Endpoint)
    requires e1.UpdateOrganization? || e1.DeleteOrganization? || e1.UpdateUser? || e1.DeleteUser?
    requires RequestOf(e1) == RequestOf(e2)
    ensures e1 == e2
  {
    var p := RequestOf(e1).path;
    if e1.UpdateOrganization? || e1.DeleteOrganization? {
      assert p[1] == 'o';
      match e2
      case UpdateOrganization(b) => IdRouteInjective(OrganizationsPrefix, e1.id, b, "/");
      case DeleteOrganization(b) => IdRouteInjective(OrganizationsPrefix, e1.id, b, "/");
    } else {
      assert p[1] == 'u';
      match e2
      case UpdateUser(b) => IdRouteInjective(UsersPrefix, e1.id, b, "/");
      case DeleteUser(b) => IdRouteInjective(UsersPrefix, e1.id, b, "/");
    }
  }

  /** No two operations share a method and a path. */
  lemma RequestOfInjective(e1: Endpoint, e2: Endpoint)
    requires RequestOf(e1) == RequestOf(e2)
    ensures e1 == e2
  {
    if e1.GetOrganization? {
      GetOrganizationInjective(e1.id, e2);
    } else if e2.GetOrganization? {
      GetOrganizationInjective(e2.id, e1);
    } else if e1.OrganizationUsers? {
      OrganizationUsersInjective(e1.orgId, e2);
    } else if e2.OrganizationUsers? {
      OrganizationUsersInjective(e2.orgId, e1);
    } else if e1.GetUser? {
      GetUserInjective(e1.id, e2);
    } else if e2.GetUser? {
      GetUserInjective(e2.id, e1);
    } else if HasId(e1) {
      UpdateDeleteInjective(e1, e2);
    } else if HasId(e2) {
      UpdateDeleteInjective(e2, e1);
    } else {
      FixedRoutesInjective(e1, e2);
    }
  }

  /** The per-request options the interceptor receives and returns. */
  class RequestConfig {
    var verb: HttpMethod
    var path: string
    var headers: map<string, string>

    /** A request created by the client instance: it carries the default headers. */
    constructor (request: Request)
      ensures verb == request.verb && path == request.path
      ensures headers == DefaultHeaders()
    {
      verb := request.verb;
      path := request.path;
      headers := DefaultHeaders();
    }
  }

  /** `if (token)`: a stored token counts only when present and non-empty. */
  predicate HasToken(stored: Option<string>) {
    stored.Some? && stored.value != ""
  }

  /** The request interceptor: with a stored token, sets `Authorization` to
      `Token <token>` on the config in place; otherwise leaves it as it was.
      No other header, nor the method or path, changes. */
  method Intercept(config: RequestConfig, stored: Option<string>) returns (result: RequestConfig)
    modifies config
    ensures result == config
    ensures config.verb == old(config.verb) && config.path == old(config.path)
    ensures config.headers ==
      if HasToken(stored) then old(config.headers)[Authorization := "Token " + stored.value]
      else old(config.headers)
    ensures ContentType in old(config.headers) ==> config.headers[ContentType] == old(config.headers[ContentType])
  {
    if HasToken(stored) {
      config.headers := config.headers[Authorization := "Token " + stored.value];
    }
    result := config;
  }
}
