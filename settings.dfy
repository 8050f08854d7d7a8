/** The collector's settings page: the profile tab filled from the signed-in
    user, and the password tab whose submit either reports a mismatch or
    clears the three password fields. */
module Settings {
  import opened Wrappers
  import opened Models
  import opened Text
  import opened Web

  const MismatchMessage := "New passwords do not match"

  datatype Tab = ProfileTab | PasswordTab

  /** `profileData` */
  datatype ProfileData = ProfileData(firstName: string, lastName: string, phone: string, location: string)

  const EmptyProfile := ProfileData("", "", "", "")

  /** The profile the user effect fills in: the name split at its first
      space, no phone (the user has none) and the region as the location. */
  function ProfileFor(u: User): (d: ProfileData)
    ensures ' ' !in d.firstName
    ensures ' ' in u.name ==> d.firstName + " " + d.lastName == u.name
    ensures ' ' !in u.name ==> d.firstName == u.name && d.lastName == ""
    ensures d.phone == "" && d.location == u.region.GetOr("")
  {
    NameSplit(u.name);
    ProfileData(FirstName(u.name), LastName(u.name), "", u.region.GetOr(""))
  }

  /** `passwordData` */
  datatype PasswordData = PasswordData(currentPassword: string, newPassword: string, confirmPassword: string)

  const EmptyPasswords := PasswordData("", "", "")

  /** The three password inputs are `required`: the browser submits only
      when all are filled in. */
  predicate Filled(pw: PasswordData) {
    pw.currentPassword != "" && pw.newPassword != "" && pw.confirmPassword != ""
  }

  /** The tab shown, both forms, and the alerts raised so far. */
  datatype Page = Page(tab: Tab, profile: ProfileData, passwords: PasswordData, alerts: seq<string>)

  /** The user effect: a signed-in user's profile replaces the form; without
      one the form is left as it is. */
  function UserEffectStep(p: Page, user: Option<User>): (r: Page)
    ensures user.Some? ==> r == p.(profile := ProfileFor(user.value))
    ensures user.None? ==> r == p
  {
    if user.Some? then p.(profile := ProfileFor(user.value)) else p
  }

  /** `handleProfileSubmit`: saving the profile is not implemented. */
  function ProfileSubmitStep(p: Page): Page {
    p
  }

  /** `handlePasswordSubmit`, past the browser's check of the required fields. */
  function PasswordSubmitStep(p: Page): Page {
    if !Filled(p.passwords) then p
    else if p.passwords.newPassword != p.passwords.confirmPassword then p.(alerts := p.alerts + [MismatchMessage])
    else p.(passwords := EmptyPasswords)
  }

  /** Saving the profile changes nothing on the page. */
  lemma ProfileSubmitChangesNothing(p: Page)
    ensures ProfileSubmitStep(p) == p
  {
  }

  /** New passwords that differ raise one alert and keep every field as typed. */
  lemma MismatchKeepsFields(p: Page)
    requires Filled(p.passwords) && p.passwords.newPassword != p.passwords.confirmPassword
    ensures var after := PasswordSubmitStep(p);
      && after.passwords == p.passwords && after.alerts == p.alerts + [MismatchMessage]
      && after.profile == p.profile && after.tab == p.tab
  {
  }

  /** Matching passwords clear all three fields without an alert. */
  lemma MatchClearsFields(p: Page)
    requires Filled(p.passwords) && p.passwords.newPassword == p.passwords.confirmPassword
    ensures var after := PasswordSubmitStep(p);
      && after.passwords == EmptyPasswords && after.alerts == p.alerts
      && after.profile == p.profile && after.tab == p.tab
  {
  }

  /** Of a filled form, the fields are cleared exactly when no alert is
      raised, and an alert is raised exactly when the new passwords differ. */
  lemma PasswordOutcomes(p: Page)
    requires Filled(p.passwords)
    ensures var after := PasswordSubmitStep(p);
      && (after.passwords == EmptyPasswords <==> after.alerts == p.alerts)
      && (after.alerts != p.alerts <==> p.passwords.newPassword != p.passwords.confirmPassword)
  {
    if p.passwords.newPassword != p.passwords.confirmPassword {
      assert PasswordSubmitStep(p).alerts == p.alerts + [MismatchMessage];
      assert |PasswordSubmitStep(p).alerts| == |p.alerts| + 1;
    }
  }

  /** A submit the browser holds back changes nothing. */
  lemma EmptyFieldBlocks(p: Page)
    requires p.passwords.currentPassword == "" || p.passwords.newPassword == "" || p.passwords.confirmPassword == ""
    ensures PasswordSubmitStep(p) == p
  {
  }

  // ------------------------------------------------------------------ class

  class SettingsPage {
    const browser: Browser
    var tab: Tab
    var profile: ProfileData
    var passwords: PasswordData

    constructor (browser: Browser)
      ensures this.browser == browser
      ensures tab == ProfileTab && profile == EmptyProfile && passwords == EmptyPasswords
    {
      this.browser := browser;
      tab := ProfileTab;
      profile := EmptyProfile;
      passwords := EmptyPasswords;
    }

    function State(): Page
      reads this, browser
    {
      Page(tab, profile, passwords, browser.alerts)
    }

    /** The effect on `user` */
    method OnUser(user: Option<User>)
      modifies this`profile
      ensures State() == UserEffectStep(old(State()), user)
    {
      if user.Some? {
        profile := ProfileFor(user.value);
      }
    }

    /** The tab buttons */
    method SelectTab(t: Tab)
      modifies this`tab
      ensures State() == old(State()).(tab := t)
    {
      tab := t;
    }

    /** `handlePasswordSubmit` */
    method SubmitPassword()
      modifies this`passwords, browser`alerts
      ensures State() == PasswordSubmitStep(old(State()))
    {
      if !Filled(passwords) {
        return;
      }
      if passwords.newPassword != passwords.confirmPassword {
        browser.Alert(MismatchMessage);
        return;
      }
      passwords := EmptyPasswords;
    }
  }
}
