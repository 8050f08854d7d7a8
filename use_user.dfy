/** `useUser`: the signed-in user read from `localStorage` once on mount. */
module UseUser {
  import opened Wrappers
  import opened Models
  import opened Web

  const UserKey := "user"

  /** The user the effect ends with: the stored record when the `user` entry
      is present and holds one. Text that does not parse is only logged, and
      JSON of another shape is not a user either. */
  function StoredUser(local: Storage): (u: Option<User>)
    ensures !Present(GetItem(local, UserKey)) ==> u.None?
    ensures u.Some? <==> UserKey in local && local[UserKey].UserJson?
    ensures u.Some? ==> u.value == local[UserKey].user
  {
    var entry := GetItem(local, UserKey);
    if !Present(entry) then None
    else match ParseUser(entry.value)
      case Ok(Some(user)) => Some(user)
      case _ => None
  }

  /** `JSON.parse(user).name || fallback` as the home pages greet the user:
      the stored user's name when there is one, else the fallback. */
  function NameOr(local: Storage, fallback: string): (name: string)
    ensures StoredUser(local).Some? && StoredUser(local).value.name != "" ==> name == StoredUser(local).value.name
    ensures StoredUser(local).None? || StoredUser(local).value.name == "" ==> name == fallback
  {
    match StoredUser(local)
    case Some(u) => if u.name != "" then u.name else fallback
    case None => fallback
  }

  /** Whether the stored `user` entry makes `JSON.parse` throw. */
  predicate UnreadableUser(local: Storage) {
    Present(GetItem(local, UserKey)) && local[UserKey].Raw?
  }

  /** The hook's two state fields. */
  class UserHook {
    var user: Option<User>
    var isLoading: bool

    constructor ()
      ensures user.None? && isLoading
    {
      user := None;
      isLoading := true;
    }

    /** The mount effect. */
    method Load(b: Browser)
      modifies this
      ensures user == (if StoredUser(b.local).Some? then StoredUser(b.local) else old(user))
      ensures !isLoading
    {
      var entry := GetItem(b.local, UserKey);
      if Present(entry) {
        var parsed := ParseUser(entry.value);
        if parsed.Ok? && parsed.value.Some? {
          user := parsed.value;
        }
      }
      isLoading := false;
    }
  }

  /** Mounting a fresh hook: `user` is the stored user or `null`, and loading is over. */
  method Mount(b: Browser) returns (hook: UserHook)
    ensures fresh(hook)
    ensures hook.user == StoredUser(b.local) && !hook.isLoading
  {
    hook := new UserHook();
    hook.Load(b);
  }
}
