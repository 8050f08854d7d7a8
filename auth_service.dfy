/** `AuthService`: refuses blank fields before asking the repository. */
module AuthService {
  import opened Wrappers
  import opened Models
  import opened Text
  import AuthRepository

  const EmailRequired := "Email is required"
  const PasswordRequired := "Password is required"

  /** `login(credentials)`: the field checks throw; the repository gets the
      credentials as they were typed. */
  function Login(users: seq<Account>, c: Credentials, now: nat): Outcome<AuthResponse> {
    if Trim(c.email) == "" then Thrown(EmailRequired)
    else if Trim(c.password) == "" then Thrown(PasswordRequired)
    else AuthRepository.Login(users, c, now)
  }

  /** `logout()` delegates to the repository, which never fails. */
  function Logout(): (r: Outcome<()>)
    ensures r.Ok?
  {
    AuthRepository.Logout()
  }

  /** A blank email is refused first, then a blank password; anything else
      is the repository's answer, untrimmed credentials and all. */
  lemma LoginChecks(users: seq<Account>, c: Credentials, now: nat)
    ensures IsBlank(c.email) ==> Login(users, c, now) == Thrown(EmailRequired)
    ensures !IsBlank(c.email) && IsBlank(c.password) ==> Login(users, c, now) == Thrown(PasswordRequired)
    ensures !IsBlank(c.email) && !IsBlank(c.password) ==>
            Login(users, c, now) == AuthRepository.Login(users, c, now)
  {
  }
}
