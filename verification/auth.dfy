/**
 * The session provider: the mock user built by `login` from the account name,
 * `logout`, and how the pages read the role from the session.
 */
module Auth {
  import opened Wrappers
  import opened Text
  import opened Model

  datatype Device = Web | Mobile

  datatype Credentials = Credentials(account: string, password: string, device: Device)

  /** The tenant the `admin` and `pbm` accounts are attached to. */
  const JakartaUtara: Tenant := Tenant(
    "1", "Koperasi TKBM Jakarta Utara", "TKBM-JKT-UT", "Jakarta Utara", "DKI Jakarta",
    Active, 245, 18, At(1579075200000), At(1710498600000))

  /** Display name and role name of an account other than superadmin and admin. */
  function StaffName(account: string): string {
    if account == "pbm" then "PBM Manager"
    else if account == "teamleader" then "Team Leader"
    else "Worker"
  }

  /** The mock user `login` stores. It reads the account only. */
  function Login(c: Credentials): (u: User)
    ensures |u.roles| == 1
    ensures c.account == "superadmin" ==> u.roles[0].alias == "SUPERADMIN" && u.tenant.None?
    ensures c.account == "admin" ==>
      && u.roles[0].alias == "ADMIN"
      && u.tenant.Some? && u.tenant.value.id == "1" && u.tenant.value.province == "DKI Jakarta"
    ensures c.account != "superadmin" && c.account != "admin" ==>
      && u.roles[0].alias == Upper(c.account)
      && (u.tenant.Some? <==> c.account == "pbm")
      && u.fullname == u.roles[0].name == StaffName(c.account)
      && u.username == c.account
  {
    if c.account == "superadmin" then
      User("1", "superadmin", "superadmin@tkbm.co.id", "Super Administrator",
           [Role("1", "Super Administrator", "SUPERADMIN")], None,
           Some("mock_access_token"), Some("mock_refresh_token"))
    else if c.account == "admin" then
      User("2", "admin", "admin@tkbmjakut.co.id", "Admin Jakarta Utara",
           [Role("2", "Admin Koperasi TKBM", "ADMIN")], Some(JakartaUtara),
           Some("mock_access_token"), Some("mock_refresh_token"))
    else
      User("3", c.account, c.account + "@tkbm.com", StaffName(c.account),
           [Role("3", StaffName(c.account), Upper(c.account))],
           if c.account == "pbm" then Some(JakartaUtara) else None,
           Some("mock_access_token"), Some("mock_refresh_token"))
  }

  /** `logout` clears the session. */
  function Logout(session: Option<User>): (after: Option<User>)
    ensures after.None?
  {
    None
  }

  /** `user?.roles[0]?.alias?.toLowerCase()`: absent without a user or a role. */
  function RoleAlias(session: Option<User>): (role: Option<string>)
    ensures role.Some? <==> session.Some? && |session.value.roles| > 0
    ensures role.Some? ==> role.value == Lower(session.value.roles[0].alias)
  {
    if session.Some? && |session.value.roles| > 0 then Some(Lower(session.value.roles[0].alias)) else None
  }

  /** The pages' `isSuperadmin`: the lower-cased alias is `superadmin`. */
  predicate IsSuperadmin(session: Option<User>)
    ensures IsSuperadmin(session) <==>
      session.Some? && |session.value.roles| > 0 && Lower(session.value.roles[0].alias) == Lower("SUPERADMIN")
  {
    LowerSuperadmin();
    RoleAlias(session) == Some("superadmin")
  }

  /** The header's `isSuperadmin`: a case-sensitive `alias === 'SUPERADMIN'`. */
  predicate HeaderSuperadmin(session: Option<User>)
    ensures HeaderSuperadmin(session) ==> IsSuperadmin(session)
  {
    LowerSuperadmin();
    session.Some? && |session.value.roles| > 0 && session.value.roles[0].alias == "SUPERADMIN"
  }

  /** The password and the device never influence the user that is built. */
  lemma LoginReadsAccountOnly(c: Credentials, d: Credentials)
    requires c.account == d.account
    ensures Login(c) == Login(d)
  {
  }

  /** Whatever the account, the role the pages see after `login` is the
      lower-cased account name. */
  lemma LoginRole(c: Credentials)
    ensures RoleAlias(Some(Login(c))) == Some(Lower(c.account))
  {
    var alias := Login(c).roles[0].alias;
    if c.account == "superadmin" {
      assert alias == "SUPERADMIN";
      LowerSuperadmin();
    } else if c.account == "admin" {
      assert alias == "ADMIN";
      var a, b := Lower(alias), Lower(c.account);
      forall i | 0 <= i < 5
        ensures a[i] == b[i]
      {
      }
      assert a == b;
    } else {
      LowerOfUpper(c.account);
    }
  }

  /** `SUPERADMIN` and `superadmin` both lower-case to `superadmin`. */
  lemma LowerSuperadmin()
    ensures Lower("SUPERADMIN") == Lower("superadmin") == "superadmin"
  {
    var a, b := Lower("SUPERADMIN"), Lower("superadmin");
    forall i | 0 <= i < 10
      ensures a[i] == b[i] == "superadmin"[i]
    {
    }
    assert a == b == "superadmin";
  }

  /** An account equal to `superadmin` up to letter case gets the superadmin
      role on the pages, and the header agrees for every logged-in account. */
  lemma LoginSuperadmin(c: Credentials)
    ensures IsSuperadmin(Some(Login(c))) <==> Lower(c.account) == "superadmin"
    ensures HeaderSuperadmin(Some(Login(c))) <==> IsSuperadmin(Some(Login(c)))
  {
    LoginRole(c);
    LowerSuperadmin();
    var alias := Login(c).roles[0].alias;
    if Lower(alias) == "superadmin" {
      if c.account != "admin" && c.account != "superadmin" {
        assert alias == Upper(c.account);
        LowerInjectiveOnUpperCase(alias, "SUPERADMIN");
      }
    }
  }

  /** A stored user whose alias is `SuperAdmin` is superadmin for the pages but
      not for the header. */
  lemma HeaderIsCaseSensitive()
    ensures var u := Some(User("9", "x", "x", "x", [Role("9", "x", "SuperAdmin")], None, None, None));
            IsSuperadmin(u) && !HeaderSuperadmin(u)
  {
    var a := Lower("SuperAdmin");
    forall i | 0 <= i < 10
      ensures a[i] == "superadmin"[i]
    {
    }
    assert a == "superadmin";
  }
}
