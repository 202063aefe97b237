/**
 * The checks `login` and `register` make before calling the authentication
 * service, and the role `register` writes into the new user record.
 */
module Auth {
  import opened Wrappers
  import opened Text
  import opened Domain

  const LoginBlankMessage: string := "Lütfen e-posta ve şifre giriniz."
  const RegisterBlankMessage: string := "Lütfen tüm alanları doldurunuz."
  const ShortPasswordMessage: string := "Şifre en az 6 karakter olmalıdır."
  const MinPasswordLength: nat := 6

  /** The message `login` shows instead of signing in, or `None` when it goes on to sign in. */
  function LoginError(email: string, password: string): (r: Option<string>)
    ensures r == None <==> !IsBlank(email) && !IsBlank(password)
    ensures r != None ==> r == Some(LoginBlankMessage)
  {
    if IsBlank(email) || IsBlank(password) then Some(LoginBlankMessage) else None
  }

  /**
   * The message `register` shows instead of creating an account, or `None`
   * when it goes on. Blank fields are reported before a short password; the
   * name and the department are not checked.
   */
  function RegisterError(email: string, password: string): (r: Option<string>)
    ensures r == None <==> !IsBlank(email) && !IsBlank(password) && |password| >= MinPasswordLength
    ensures IsBlank(email) || IsBlank(password) ==> r == Some(RegisterBlankMessage)
    ensures !IsBlank(email) && !IsBlank(password) && |password| < MinPasswordLength ==> r == Some(ShortPasswordMessage)
  {
    if IsBlank(email) || IsBlank(password) then Some(RegisterBlankMessage)
    else if |password| < MinPasswordLength then Some(ShortPasswordMessage)
    else None
  }

  /** Anything `register` accepts, `login` accepts too. */
  lemma RegisterAcceptsOnlyLoginable(email: string, password: string)
    requires RegisterError(email, password) == None
    ensures LoginError(email, password) == None
  {
  }

  /** A password with fewer than six characters is never accepted by `register`. */
  lemma ShortPasswordRejected(email: string, password: string)
    requires |password| < MinPasswordLength
    ensures RegisterError(email, password) != None
  {
  }

  /**
   * The role of a new account: "ADMIN" when the whole lower-cased e-mail
   * address (domain included) contains "admin", otherwise "USER".
   */
  function RoleFor(email: string): (role: string)
    ensures role == AdminRole || role == UserRole
    ensures role == AdminRole <==> Contains(email, "admin", true)
  {
    ContainsLowered(email, "admin");
    if Contains(Lower(email), "admin", false) then AdminRole else UserRole
  }

  /** The record `register` stores: no follows yet, the role decided by the e-mail. */
  function NewUser(uid: string, name: string, email: string, department: string): (u: User)
    ensures u.id == uid && u.name == name && u.email == email && u.department == department
    ensures u.role == RoleFor(email)
    ensures u.followedIncidents == []
  {
    User(uid, name, email, RoleFor(email), department, [])
  }

  /** "Admin@campus.edu" with password "abcdef" is accepted and becomes an administrator. */
  lemma ScenarioAdminRegistration()
    ensures RegisterError("Admin@campus.edu", "abcdef") == None
    ensures RoleFor("Admin@campus.edu") == AdminRole
  {
    var e, p := "Admin@campus.edu", "abcdef";
    assert !IsBlank(e) by { assert !IsWhitespace(e[0]); }
    assert !IsBlank(p) by { assert !IsWhitespace(p[0]); }
    assert MatchesAt("Admin@campus.edu", "admin", 0, true);
  }

  /** The check looks at the whole address, so an "admin" domain grants the role too. */
  lemma ScenarioAdminDomain()
    ensures RoleFor("ayse@admin.edu") == AdminRole
  {
    assert MatchesAt("ayse@admin.edu", "admin", 5, true);
  }

  /** Password "abc" is rejected for length before any account is created. */
  lemma ScenarioShortPassword()
    ensures RegisterError("ayse@campus.edu", "abc") == Some(ShortPasswordMessage)
  {
    var e, p := "ayse@campus.edu", "abc";
    assert !IsBlank(e) by { assert !IsWhitespace(e[0]); }
    assert !IsBlank(p) by { assert !IsWhitespace(p[0]); }
  }

  /** An address without "admin" in any case gets the ordinary role. */
  lemma ScenarioRegularUser()
    ensures RoleFor("ali@x.tr") == UserRole
  {
    var e := "ali@x.tr";
    forall i: nat | i + 5 <= |e| ensures !MatchesAt(e, "admin", i, true) {
      if i == 0 { assert !CharEquals(e[1], "admin"[1], true); }
      else if i == 1 { assert !CharEquals(e[1], "admin"[0], true); }
      else if i == 2 { assert !CharEquals(e[2], "admin"[0], true); }
      else { assert !CharEquals(e[3], "admin"[0], true); }
    }
  }
}
