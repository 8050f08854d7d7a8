/** The login page: signs in through `AuthService`, stores the session and
    sends the user to the home of its role. */
module LoginPage {
  import opened Wrappers
  import opened Models
  import opened Web
  import AuthService
  import ProtectedRoute
  import Text

  /** The page's own role-to-route switch. */
  function LoginHome(role: Role): (p: string)
    ensures role == Admin ==> p == "/admin"
    ensures role == Collector ==> p == "/dashboard"
    ensures role == Nursery ==> p == "/nursery"
    ensures role == Partner ==> p == "/partner"
    ensures role.OtherRole? ==> p == "/dashboard"
  {
    match role
    case Admin => "/admin"
    case Collector => "/dashboard"
    case Nursery => "/nursery"
    case Partner => "/partner"
    case OtherRole(_) => "/dashboard"
  }

  /** The login page and the route guard send the four known roles to the
      same place, and disagree on every other role: `/dashboard` here,
      `/login` there. */
  lemma HomesAgreeOnKnownRoles(role: Role)
    ensures !role.OtherRole? ==> LoginHome(role) == ProtectedRoute.GuardHome(Some(role))
    ensures role.OtherRole? ==> LoginHome(role) == "/dashboard" && ProtectedRoute.GuardHome(Some(role)) == "/login"
  {
  }

  /** The session a successful sign-in leaves behind. */
  function SessionAfter(local: Storage, r: AuthResponse): Storage {
    local[ProtectedRoute.TokenKey := Raw(r.token)][ProtectedRoute.UserKey := UserJson(r.user)]
  }

  /** After a sign-in with a non-empty token, a guard that allows the user's
      role lets it in, and one that does not sends it where the login page
      would have sent it, for the four known roles. */
  lemma SignedInPassesGuard(local: Storage, r: AuthResponse, allowed: seq<Role>)
    requires r.token != ""
    ensures var d := ProtectedRoute.Decide(SessionAfter(local, r), Some(allowed));
      && (d.authorize <==> r.user.role in allowed)
      && (r.user.role !in allowed && !r.user.role.OtherRole? ==> d.redirect == Some(LoginHome(r.user.role)))
  {
    var s := SessionAfter(local, r);
    assert ProtectedRoute.StoredUser(s, r.user);
    assert Present(GetItem(s, ProtectedRoute.TokenKey));
    ProtectedRoute.RoleCheck(s, Some(allowed), r.user);
  }

  /** The browser's check of the form: both inputs are `required`, so an
      empty one holds the submit back. Their `type="email"` format check and
      value sanitizing are not modelled. */
  predicate LoginSubmittable(email: string, password: string) {
    email != "" && password != ""
  }

  /** `required` accepts a password of spaces, so the service's own
      "Password is required" can still show past the browser's check. */
  lemma BlankPasswordPassesBrowser(users: seq<Account>, email: string, now: nat)
    requires !Text.IsBlank(email)
    ensures LoginSubmittable(email, " ")
    ensures AuthService.Login(users, Credentials(email, " "), now) == Thrown(AuthService.PasswordRequired)
  {
    assert Text.IsSpace(" "[0]);
    AuthService.LoginChecks(users, Credentials(email, " "), now);
  }

  class LoginPage {
    var email: string
    var password: string
    var loading: bool
    var error: string

    constructor ()
      ensures email == "" && password == "" && !loading && error == ""
    {
      email := "";
      password := "";
      loading := false;
      error := "";
    }

    /** A submit of the form: the browser's check, then `handleLogin`.
        An empty field changes nothing. */
    method SubmitLogin(b: Browser, users: seq<Account>, now: nat)
      modifies this`loading, this`error, b`local, b`history
      ensures !LoginSubmittable(email, password) ==>
        && loading == old(loading) && error == old(error)
        && b.local == old(b.local) && b.history == old(b.history)
      ensures LoginSubmittable(email, password) ==> !loading
      ensures LoginSubmittable(email, password) ==>
        match AuthService.Login(users, Credentials(email, password), now)
        case Ok(r) =>
          && b.local == SessionAfter(old(b.local), r)
          && b.history == old(b.history) + [Path(LoginHome(r.user.role))]
          && error == ""
        case Thrown(m) =>
          && b.local == old(b.local) && b.history == old(b.history)
          && error == m
    {
      if LoginSubmittable(email, password) {
        HandleLogin(b, users, now);
      }
    }

    /** `handleLogin`, with the users file and `Date.now()` passed in. Every
        exception the service throws is an `Error`, so the "Login failed"
        fallback never shows. */
    method HandleLogin(b: Browser, users: seq<Account>, now: nat)
      modifies this`loading, this`error, b`local, b`history
      ensures !loading
      ensures match AuthService.Login(users, Credentials(email, password), now)
        case Ok(r) =>
          && b.local == SessionAfter(old(b.local), r)
          && b.history == old(b.history) + [Path(LoginHome(r.user.role))]
          && error == ""
        case Thrown(m) =>
          && b.local == old(b.local) && b.history == old(b.history)
          && error == m
    {
      var credentials := Credentials(email, password);
      error := "";
      loading := true;
      var response := AuthService.Login(users, credentials, now);
      match response {
        case Ok(r) =>
          b.SetLocal(ProtectedRoute.TokenKey, Raw(r.token));
          b.SetLocal(ProtectedRoute.UserKey, UserJson(r.user));
          b.Push(Path(LoginHome(r.user.role)));
        case Thrown(m) =>
          error := m;
      }
      loading := false;
      assert credentials == Credentials(email, password);
    }
  }
}
