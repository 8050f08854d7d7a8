/** The header: shows the signed-in email and signs out. */
module Header {
  import opened Wrappers
  import opened Models
  import opened Web
  import ProtectedRoute

  /** `JSON.parse(user)` followed by `userData.email || ""`; an unparsable
      entry throws out of the effect. */
  function StoredEmail(v: Value): (r: Outcome<string>)
    ensures r.Thrown? <==> v.Raw?
    ensures v.UserJson? ==> r == Ok(v.user.email)
    ensures !v.Raw? && !v.UserJson? ==> r == Ok("")
  {
    match ParseUser(v)
    case Thrown(m) => Thrown(m)
    case Ok(Some(u)) => Ok(OrElse(Some(u.email), ""))
    case Ok(None) => Ok("")
  }

  class Header {
    var userEmail: string

    constructor ()
      ensures userEmail == ""
    {
      userEmail := "";
    }

    /** The mount effect. */
    method LoadEmail(b: Browser) returns (r: Outcome<()>)
      modifies this`userEmail
      ensures var entry := GetItem(b.local, ProtectedRoute.UserKey);
        if !Present(entry) then r == Ok(()) && userEmail == old(userEmail)
        else match StoredEmail(entry.value)
          case Thrown(m) => r == Thrown(m) && userEmail == old(userEmail)
          case Ok(e) => r == Ok(()) && userEmail == e
    {
      var entry := GetItem(b.local, ProtectedRoute.UserKey);
      if !Present(entry) {
        return Ok(());
      }
      var email := StoredEmail(entry.value);
      match email {
        case Thrown(m) => r := Thrown(m);
        case Ok(e) =>
          userEmail := e;
          r := Ok(());
      }
    }

    /** `handleLogout`, given how `AuthService.logout` (or loading it) ended:
        the session is cleared and the browser sent to `/login` in every case. */
    method HandleLogout(b: Browser, logout: Outcome<()>)
      modifies b`local, b`history
      ensures b.local == old(b.local) - {ProtectedRoute.TokenKey} - {ProtectedRoute.UserKey}
      ensures ProtectedRoute.TokenKey !in b.local && ProtectedRoute.UserKey !in b.local
      ensures b.history == old(b.history) + [Path("/login")]
    {
      // The outcome of `logout` is only logged; the `finally` block runs either way.
      b.RemoveLocal(ProtectedRoute.TokenKey);
      b.RemoveLocal(ProtectedRoute.UserKey);
      b.Push(Path("/login"));
    }
  }

  /** After sign-out any guard redirects to `/login`. */
  lemma SignedOutIsRedirected(local: Storage, allowedRoles: Option<seq<Role>>)
    ensures ProtectedRoute.Decide(local - {ProtectedRoute.TokenKey} - {ProtectedRoute.UserKey}, allowedRoles)
            == ProtectedRoute.Decision(Some("/login"), false, false)
  {
    ProtectedRoute.MissingSession(local - {ProtectedRoute.TokenKey} - {ProtectedRoute.UserKey}, allowedRoles);
  }
}
