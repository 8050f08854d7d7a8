/** `AuthRepository`: sign-in against the bundled users file. */
module AuthRepository {
  import opened Wrappers
  import opened Models
  import opened Seqs
  import opened Text

  const InvalidCredentials := "Invalid credentials. Use demo123 as password."

  const TokenPrefix := "mock-token-"

  /** `u.email.toLowerCase() === credentials.email.toLowerCase()` */
  predicate SameEmail(a: Account, email: string) {
    ToLower(a.email) == ToLower(email)
  }

  /** `mock-token-<id>-<timestamp>` */
  function Token(id: string, now: nat): string {
    TokenPrefix + id + "-" + NatToString(now)
  }

  /** `login(credentials)`, with `now` for `Date.now()`. */
  function Login(users: seq<Account>, c: Credentials, now: nat): Outcome<AuthResponse> {
    match Find(users, (a: Account) => SameEmail(a, c.email))
    case None => Thrown(InvalidCredentials)
    case Some(a) =>
      if a.password != c.password then Thrown(InvalidCredentials)
      else Ok(AuthResponse(WithoutPassword(a), Token(a.id, now)))
  }

  /** `logout()`: waits, and changes nothing. */
  function Logout(): Outcome<()> {
    Ok(())
  }

  // ------------------------------------------------------------- properties

  /** `k` is the first user whose email matches, ignoring case. */
  predicate FirstMatch(users: seq<Account>, email: string, k: int) {
    0 <= k < |users| && SameEmail(users[k], email)
    && forall j :: 0 <= j < k ==> !SameEmail(users[j], email)
  }

  /** Sign-in succeeds exactly when the first user with the email (in any
      case) has exactly the given password; the answer is that user without
      the password and the token built from its id; every failure is the
      same "Invalid credentials" error. */
  lemma LoginOutcome(users: seq<Account>, c: Credentials, now: nat)
    ensures Login(users, c, now).Ok? <==>
            exists k :: FirstMatch(users, c.email, k) && users[k].password == c.password
    ensures forall k :: FirstMatch(users, c.email, k) && users[k].password == c.password ==>
            Login(users, c, now) == Ok(AuthResponse(WithoutPassword(users[k]), Token(users[k].id, now)))
    ensures Login(users, c, now).Thrown? ==> Login(users, c, now).message == InvalidCredentials
  {
    var p := (a: Account) => SameEmail(a, c.email);
    var r := Find(users, p);
    forall k, k' | FirstMatch(users, c.email, k) && FirstMatch(users, c.email, k')
      ensures k == k'
    {
    }
    if r.Some? {
      var k :| 0 <= k < |users| && users[k] == r.value && p(users[k])
               && forall j :: 0 <= j < k ==> !p(users[j]);
      assert FirstMatch(users, c.email, k);
    }
  }

  /** The token starts with `mock-token-`, followed by the user's id. */
  lemma TokenCarriesId(id: string, now: nat)
    ensures var t := Token(id, now);
      && |t| > |TokenPrefix| + |id|
      && t[..|TokenPrefix|] == TokenPrefix
      && t[|TokenPrefix|..|TokenPrefix| + |id|] == id
      && t[|TokenPrefix| + |id|] == '-'
  {
    var t := Token(id, now);
    assert t == TokenPrefix + (id + ("-" + NatToString(now)));
  }
}
