/** `ProtectedRoute`: lets its children render only for a stored session
    whose role is allowed, and otherwise sends the browser elsewhere. */
module ProtectedRoute {
  import opened Wrappers
  import opened Models
  import opened Web

  const TokenKey := "token"
  const UserKey := "user"

  /** Where a signed-in user whose role is not allowed is sent. `None` is a
      stored record without a role. */
  function GuardHome(role: Option<Role>): (p: string)
    ensures role == Some(Admin) ==> p == "/admin"
    ensures role == Some(Collector) ==> p == "/dashboard"
    ensures role == Some(Nursery) ==> p == "/nursery"
    ensures role == Some(Partner) ==> p == "/partner"
    ensures role.None? || role.value.OtherRole? ==> p == "/login"
  {
    match role
    case Some(Admin) => "/admin"
    case Some(Collector) => "/dashboard"
    case Some(Nursery) => "/nursery"
    case Some(Partner) => "/partner"
    case _ => "/login"
  }

  /** What one run of `checkAuth` does: where it redirects, whether it
      authorizes, and whether it reaches the `finally` that ends loading. */
  datatype Decision = Decision(redirect: Option<string>, authorize: bool, endsLoading: bool)

  function Decide(local: Storage, allowedRoles: Option<seq<Role>>): Decision {
    var userEntry, token := GetItem(local, UserKey), GetItem(local, TokenKey);
    if !Present(userEntry) || !Present(token) then Decision(Some("/login"), false, false)
    else match ParseUser(userEntry.value)
      case Thrown(_) => Decision(Some("/login"), false, true)
      case Ok(user) =>
        var role := if user.Some? then Some(user.value.role) else None;
        if allowedRoles.Some? && !(role.Some? && role.value in allowedRoles.value)
        then Decision(Some(GuardHome(role)), false, true)
        else Decision(None, true, true)
  }

  /** What the guard renders. */
  datatype View = LoadingView | NothingView | Children

  function Render(isLoading: bool, isAuthorized: bool): (v: View)
    ensures v == Children <==> !isLoading && isAuthorized
    ensures v == LoadingView <==> isLoading
  {
    if isLoading then LoadingView else if !isAuthorized then NothingView else Children
  }

  // ------------------------------------------------------------- properties

  predicate StoredUser(local: Storage, u: User) {
    UserKey in local && local[UserKey] == UserJson(u)
  }

  /** Without a `user` or a `token` entry it redirects to `/login` and returns
      before the `try`, so loading never ends and nothing is authorized. */
  lemma MissingSession(local: Storage, allowedRoles: Option<seq<Role>>)
    requires !Present(GetItem(local, UserKey)) || !Present(GetItem(local, TokenKey))
    ensures Decide(local, allowedRoles) == Decision(Some("/login"), false, false)
  {
  }

  /** A stored user that is not JSON redirects to `/login`; loading ends. */
  lemma UnreadableUser(local: Storage, allowedRoles: Option<seq<Role>>)
    requires Present(GetItem(local, TokenKey))
    requires UserKey in local && local[UserKey].Raw? && local[UserKey].text != ""
    ensures Decide(local, allowedRoles) == Decision(Some("/login"), false, true)
  {
  }

  /** A signed-in user is authorized exactly when no roles are given or its
      role is among them; otherwise it is sent to its role's home. */
  lemma RoleCheck(local: Storage, allowedRoles: Option<seq<Role>>, u: User)
    requires Present(GetItem(local, TokenKey)) && StoredUser(local, u)
    ensures Decide(local, allowedRoles).authorize <==> allowedRoles.None? || u.role in allowedRoles.value
    ensures Decide(local, allowedRoles).endsLoading
    ensures Decide(local, allowedRoles).redirect ==
            if allowedRoles.None? || u.role in allowedRoles.value then None else Some(GuardHome(Some(u.role)))
  {
  }

  /** Only the presence of the token matters, never its content. */
  lemma TokenContentIgnored(local: Storage, allowedRoles: Option<seq<Role>>, t: string)
    requires Present(GetItem(local, TokenKey)) && t != ""
    ensures Decide(local[TokenKey := Raw(t)], allowedRoles) == Decide(local, allowedRoles)
  {
    assert GetItem(local[TokenKey := Raw(t)], UserKey) == GetItem(local, UserKey);
  }

  // ------------------------------------------------------------------ class

  /** The guard's state. `checkAuth` runs on mount and again whenever the
      path or the allowed roles change. */
  class Guard {
    var isAuthorized: bool
    var isLoading: bool

    constructor ()
      ensures !isAuthorized && isLoading
    {
      isAuthorized := false;
      isLoading := true;
    }

    /** One run of `checkAuth`. It only ever sets `isAuthorized` to true, so
        a later run that redirects leaves an earlier authorization in place. */
    method CheckAuth(b: Browser, allowedRoles: Option<seq<Role>>)
      modifies this, b`history
      ensures var d := Decide(old(b.local), allowedRoles);
        && b.history == old(b.history) + (if d.redirect.Some? then [Path(d.redirect.value)] else [])
        && isAuthorized == (old(isAuthorized) || d.authorize)
        && isLoading == (old(isLoading) && !d.endsLoading)
    {
      var userEntry, token := GetItem(b.local, UserKey), GetItem(b.local, TokenKey);
      if !Present(userEntry) || !Present(token) {
        b.Push(Path("/login"));
        return;
      }
      match ParseUser(userEntry.value) {
        case Thrown(_) =>
          b.Push(Path("/login"));
        case Ok(user) =>
          var role := if user.Some? then Some(user.value.role) else None;
          if allowedRoles.Some? && !(role.Some? && role.value in allowedRoles.value) {
            b.Push(Path(GuardHome(role)));
          } else {
            isAuthorized := true;
          }
      }
      isLoading := false;
    }
  }

  /** The first run of a freshly mounted guard: children show exactly when
      the session is there and its role is allowed. */
  method MountGuard(b: Browser, allowedRoles: Option<seq<Role>>) returns (g: Guard)
    modifies b`history
    ensures fresh(g)
    ensures var d := Decide(b.local, allowedRoles);
      (Render(g.isLoading, g.isAuthorized) == Children) == d.authorize
  {
    g := new Guard();
    g.CheckAuth(b, allowedRoles);
  }
}
