/** The sign-in/sign-up page: its two validators, the e-mail pattern they
    share, the submit handlers with their redirect, and the mode switch. */
module AuthPage {
  import opened Wrappers
  import opened JsText

  /** `\S` of a regular expression. */
  predicate NonSpace(c: char) {
    !IsWhiteSpace(c)
  }

  /** Every character of `s[from..to]` is `\S`. */
  predicate AllNonSpace(s: string, from: int, to: int)
    requires 0 <= from <= to <= |s|
  {
    forall k :: from <= k < to ==> NonSpace(s[k])
  }

  lemma AllNonSpaceWithin(s: string, from: int, to: int, from': int, to': int)
    requires 0 <= from <= from' <= to' <= to <= |s|
    requires AllNonSpace(s, from, to)
    ensures AllNonSpace(s, from', to')
  {
  }

  /** `s[i..j]` is a match of `\S+@\S+\.\S+` with its `@` at `at` and its `.` at `dot`. */
  predicate MatchAt(s: string, i: int, at: int, dot: int, j: int) {
    && 0 <= i < at && at + 1 < dot && dot + 1 < j <= |s|
    && s[at] == '@' && s[dot] == '.'
    && AllNonSpace(s, i, at) && AllNonSpace(s, at + 1, dot) && AllNonSpace(s, dot + 1, j)
  }

  /** `/\S+@\S+\.\S+/.test(s)`: the pattern is not anchored, so it suffices
      that some substring matches. */
  predicate EmailPattern(s: string) {
    exists i, at, dot, j | 0 <= i < |s| && 0 <= at < |s| && 0 <= dot < |s| && 0 <= j <= |s| ::
      MatchAt(s, i, at, dot, j)
  }

  /** The shortest match around an `@` at `at` and a `.` at `dot`: one
      character before the `@` and one after the `.`. */
  predicate CoreAt(s: string, at: int, dot: int) {
    && 1 <= at && at + 1 < dot && dot + 1 < |s|
    && s[at] == '@' && s[dot] == '.'
    && NonSpace(s[at - 1]) && AllNonSpace(s, at + 1, dot) && NonSpace(s[dot + 1])
  }

  /** Shortest matches suffice: the pattern holds exactly when some `@` has a
      non-space character before it and is followed by at least one non-space
      character up to a `.` that has a non-space character after it. */
  lemma EmailPatternCore(s: string)
    ensures EmailPattern(s) <==> exists at, dot :: CoreAt(s, at, dot)
  {
    if EmailPattern(s) {
      var i, at, dot, j :| 0 <= i < |s| && 0 <= at < |s| && 0 <= dot < |s| && 0 <= j <= |s| && MatchAt(s, i, at, dot, j);
      AllNonSpaceWithin(s, i, at, at - 1, at);
      AllNonSpaceWithin(s, dot + 1, j, dot + 1, dot + 2);
      assert s[at - 1] == s[at - 1] && s[dot + 1] == s[dot + 1];
      assert CoreAt(s, at, dot);
    }
    if exists at, dot :: CoreAt(s, at, dot) {
      var at, dot :| CoreAt(s, at, dot);
      assert MatchAt(s, at - 1, at, dot, dot + 2);
    }
  }

  /** A run of `\S` is still one when text is put before it or after it. */
  lemma AllNonSpaceAround(pre: string, s: string, post: string, from: int, to: int)
    requires 0 <= from <= to <= |s|
    requires AllNonSpace(s, from, to)
    ensures AllNonSpace(pre + s + post, |pre| + from, |pre| + to)
  {
    var t := pre + s + post;
    forall k | |pre| + from <= k < |pre| + to
      ensures NonSpace(t[k])
    {
      assert t[k] == s[k - |pre|];
    }
  }

  /** Text around a matching address does not stop the match. */
  lemma EmailPatternUnanchored(pre: string, s: string, post: string)
    requires EmailPattern(s)
    ensures EmailPattern(pre + s + post)
  {
    var i, at, dot, j :| 0 <= i < |s| && 0 <= at < |s| && 0 <= dot < |s| && 0 <= j <= |s| && MatchAt(s, i, at, dot, j);
    var t := pre + s + post;
    var n := |pre|;
    AllNonSpaceAround(pre, s, post, i, at);
    AllNonSpaceAround(pre, s, post, at + 1, dot);
    AllNonSpaceAround(pre, s, post, dot + 1, j);
    assert t[n + at] == s[at] && t[n + dot] == s[dot];
    assert MatchAt(t, n + i, n + at, n + dot, n + j);
  }

  /** A matching string contains an `@` and, after it, a `.`. */
  lemma EmailPatternNeedsAtAndDot(s: string)
    requires EmailPattern(s)
    ensures exists at, dot :: 0 <= at < dot < |s| && s[at] == '@' && s[dot] == '.'
  {
    var i, at, dot, j :| 0 <= i < |s| && 0 <= at < |s| && 0 <= dot < |s| && 0 <= j <= |s| && MatchAt(s, i, at, dot, j);
  }

  lemma EmailPatternExamples()
    ensures EmailPattern("a@b.c")
    ensures EmailPattern("say x@y.z please")
    ensures !EmailPattern("a@b")
    ensures !EmailPattern("a@.c")
  {
    assert MatchAt("a@b.c", 0, 1, 3, 5);
    var t := "say x@y.z please";
    assert MatchAt(t, 4, 5, 7, 9);
  }

  datatype LoginData = LoginData(email: string, password: string)

  datatype SignupData = SignupData(
    firstName: string, lastName: string, username: string, email: string,
    phone: string, password: string, confirmPassword: string)

  /** The page's error record: at most one message per field. */
  datatype AuthErrors = AuthErrors(
    firstName: Option<string>,
    lastName: Option<string>,
    username: Option<string>,
    email: Option<string>,
    password: Option<string>,
    confirmPassword: Option<string>)
  {
    /** `Object.keys(errors).length === 0`. */
    predicate IsEmpty() {
      firstName.None? && lastName.None? && username.None? && email.None?
      && password.None? && confirmPassword.None?
    }
  }

  const NoAuthErrors := AuthErrors(None, None, None, None, None, None)

  const EmailRequired := "Email is required"
  const EmailInvalid := "Email is invalid"
  const PasswordRequired := "Password is required"
  const PasswordTooShort := "Password must be at least 6 characters"
  const PasswordsDiffer := "Passwords do not match"
  const FirstNameRequired := "First name is required"
  const LastNameRequired := "Last name is required"
  const UsernameRequired := "Username is required"
  const UsernameTooShort := "Username must be at least 3 characters"
  const DefaultRedirect := "/dashboard"

  /** The message the e-mail field gets, shared by both validators. */
  function EmailError(email: string): (r: Option<string>)
    ensures r.None? <==> email != "" && EmailPattern(email)
  {
    if email == "" then Some(EmailRequired)
    else if !EmailPattern(email) then Some(EmailInvalid)
    else None
  }

  /** The error record `validateLogin` produces for `d`. */
  function LoginErrors(d: LoginData): (e: AuthErrors)
    ensures e.firstName.None? && e.lastName.None? && e.username.None? && e.confirmPassword.None?
  {
    NoAuthErrors.(email := EmailError(d.email),
      password := if d.password == "" then Some(PasswordRequired) else None)
  }

  /** Sign-in is attempted exactly for a non-empty matching e-mail and a
      non-empty password. */
  lemma LoginAcceptance(d: LoginData)
    ensures LoginErrors(d).IsEmpty() <==> d.email != "" && EmailPattern(d.email) && d.password != ""
  {
  }

  /** The error record `validateSignup` produces for `d`. */
  function SignupErrors(d: SignupData): (e: AuthErrors)
    ensures e.confirmPassword.Some? <==> d.password != d.confirmPassword
    ensures e.email == EmailError(d.email)
  {
    AuthErrors(
      if d.firstName == "" then Some(FirstNameRequired) else None,
      if d.lastName == "" then Some(LastNameRequired) else None,
      if d.username == "" then Some(UsernameRequired)
      else if Utf16Length(d.username) < 3 then Some(UsernameTooShort)
      else None,
      EmailError(d.email),
      if d.password == "" then Some(PasswordRequired)
      else if Utf16Length(d.password) < 6 then Some(PasswordTooShort)
      else None,
      if d.password != d.confirmPassword then Some(PasswordsDiffer) else None)
  }

  /** Registration is attempted exactly when both names are given, the user
      name has at least 3 characters, the e-mail matches, the password has at
      least 6 characters and the confirmation repeats it; the phone number is
      never checked. */
  lemma SignupAcceptance(d: SignupData)
    ensures SignupErrors(d).IsEmpty() <==>
      d.firstName != "" && d.lastName != "" && Utf16Length(d.username) >= 3
      && d.email != "" && EmailPattern(d.email)
      && Utf16Length(d.password) >= 6 && d.confirmPassword == d.password
  {
  }

  /** Lengths are counted in UTF-16 code units: two characters outside the
      Basic Multilingual Plane make a long-enough user name. */
  lemma SurrogatePairsCount(d: SignupData)
    requires d.username == "\U{1F600}\U{1F600}"
    ensures SignupErrors(d).username == None
  {
    assert d.username[1..][1..] == [];
  }

  /** Each field carries at most one message, and a short password that the
      confirmation repeats is reported on the password field only. */
  lemma SignupShortPassword(d: SignupData)
    requires d.password != "" && Utf16Length(d.password) < 6 && d.confirmPassword == d.password
    ensures SignupErrors(d).password == Some(PasswordTooShort) && SignupErrors(d).confirmPassword == None
  {
  }

  /** `sessionStorage.getItem('redirectAfterLogin') || '/dashboard'`: a
      missing or empty stored target falls back to the dashboard. */
  function RedirectTarget(stored: Option<string>): (r: string)
    ensures r != ""
    ensures stored.Some? && stored.value != "" ==> r == stored.value
    ensures stored.None? || stored.value == "" ==> r == DefaultRedirect
  {
    if stored.Some? && stored.value != "" then stored.value else DefaultRedirect
  }

  /** The answer of the backend `login`/`register` call. */
  datatype AuthAnswer = Threw | Answered(success: bool, message: string)

  class AuthPageView {
    var isLogin: bool
    var isLoading: bool
    var loginData: LoginData
    var signupData: SignupData
    var errors: AuthErrors
    /** The `redirectAfterLogin` entry of session storage. */
    var redirectAfterLogin: Option<string>
    /** Where the router was sent, if anywhere. */
    var navigatedTo: Option<string>

    /** Between events no request is in flight. */
    ghost predicate Valid()
      reads this
    {
      !isLoading
    }

    /** The page opens in sign-up mode only for `?mode=signup`. */
    constructor(mode: Option<string>, stored: Option<string>)
      ensures Valid()
      ensures isLogin <==> mode != Some("signup")
      ensures errors == NoAuthErrors && navigatedTo == None && redirectAfterLogin == stored
      ensures loginData == LoginData("", "") && signupData == SignupData("", "", "", "", "", "", "")
    {
      isLogin := mode != Some("signup");
      isLoading := false;
      loginData := LoginData("", "");
      signupData := SignupData("", "", "", "", "", "", "");
      errors := NoAuthErrors;
      redirectAfterLogin := stored;
      navigatedTo := None;
    }

    /** `validateLogin`. */
    method ValidateLogin() returns (ok: bool)
      modifies this
      ensures errors == LoginErrors(loginData)
      ensures ok <==> errors.IsEmpty()
      ensures isLogin == old(isLogin) && isLoading == old(isLoading) && loginData == old(loginData)
      ensures signupData == old(signupData) && redirectAfterLogin == old(redirectAfterLogin)
      ensures navigatedTo == old(navigatedTo)
    {
      var newErrors := NoAuthErrors;
      if loginData.email == "" {
        newErrors := newErrors.(email := Some(EmailRequired));
      } else if !EmailPattern(loginData.email) {
        newErrors := newErrors.(email := Some(EmailInvalid));
      }
      if loginData.password == "" {
        newErrors := newErrors.(password := Some(PasswordRequired));
      }
      errors := newErrors;
      ok := newErrors.IsEmpty();
    }

    /** `validateSignup`. Each field gets at most one message; the mismatch
        check is independent of the other password checks. */
    method ValidateSignup() returns (ok: bool)
      modifies this
      ensures errors == SignupErrors(signupData)
      ensures ok <==> errors.IsEmpty()
      ensures isLogin == old(isLogin) && isLoading == old(isLoading) && loginData == old(loginData)
      ensures signupData == old(signupData) && redirectAfterLogin == old(redirectAfterLogin)
      ensures navigatedTo == old(navigatedTo)
    {
      var d := signupData;
      var firstName, lastName, username, email, password, confirm := None, None, None, None, None, None;
      if d.firstName == "" {
        firstName := Some(FirstNameRequired);
      }
      if d.lastName == "" {
        lastName := Some(LastNameRequired);
      }
      if d.username == "" {
        username := Some(UsernameRequired);
      } else if Utf16Length(d.username) < 3 {
        username := Some(UsernameTooShort);
      }
      if d.email == "" {
        email := Some(EmailRequired);
      } else if !EmailPattern(d.email) {
        email := Some(EmailInvalid);
      }
      if d.password == "" {
        password := Some(PasswordRequired);
      } else if Utf16Length(d.password) < 6 {
        password := Some(PasswordTooShort);
      }
      if d.password != d.confirmPassword {
        confirm := Some(PasswordsDiffer);
      }
      var newErrors := AuthErrors(firstName, lastName, username, email, password, confirm);
      errors := newErrors;
      ok := newErrors.IsEmpty();
    }

    /** After a successful sign-in or sign-up: go to the stored target, or to
        the dashboard, and forget the stored target. */
    method Redirect()
      modifies this
      ensures navigatedTo == Some(RedirectTarget(old(redirectAfterLogin))) && redirectAfterLogin == None
      ensures isLogin == old(isLogin) && isLoading == old(isLoading) && errors == old(errors)
      ensures loginData == old(loginData) && signupData == old(signupData)
    {
      var target := RedirectTarget(redirectAfterLogin);
      redirectAfterLogin := None;
      navigatedTo := Some(target);
    }

    /** `handleLogin`: returns whether the request was sent. Nothing is sent
        when validation fails. */
    method HandleLogin(answer: AuthAnswer) returns (sent: bool)
      requires Valid()
      modifies this
      ensures Valid()
      ensures errors == LoginErrors(loginData)
      ensures sent <==> errors.IsEmpty()
      ensures sent && answer.Answered? && answer.success ==>
        navigatedTo == Some(RedirectTarget(old(redirectAfterLogin))) && redirectAfterLogin == None
      ensures !(sent && answer.Answered? && answer.success) ==>
        navigatedTo == old(navigatedTo) && redirectAfterLogin == old(redirectAfterLogin)
      ensures isLogin == old(isLogin) && loginData == old(loginData) && signupData == old(signupData)
    {
      sent := ValidateLogin();
      if !sent {
        return;
      }
      isLoading := true;
      if answer.Answered? && answer.success {
        Redirect();
      }
      isLoading := false;
    }

    /** `handleSignup`: returns whether the request was sent. */
    method HandleSignup(answer: AuthAnswer) returns (sent: bool)
      requires Valid()
      modifies this
      ensures Valid()
      ensures errors == SignupErrors(signupData)
      ensures sent <==> errors.IsEmpty()
      ensures sent && answer.Answered? && answer.success ==>
        navigatedTo == Some(RedirectTarget(old(redirectAfterLogin))) && redirectAfterLogin == None
      ensures !(sent && answer.Answered? && answer.success) ==>
        navigatedTo == old(navigatedTo) && redirectAfterLogin == old(redirectAfterLogin)
      ensures isLogin == old(isLogin) && loginData == old(loginData) && signupData == old(signupData)
    {
      sent := ValidateSignup();
      if !sent {
        return;
      }
      isLoading := true;
      if answer.Answered? && answer.success {
        Redirect();
      }
      isLoading := false;
    }

    /** The "Sign up"/"Sign in" links: switch mode and clear the errors. */
    method SwitchMode(toLogin: bool)
      modifies this
      ensures isLogin == toLogin && errors == NoAuthErrors
      ensures isLoading == old(isLoading) && loginData == old(loginData) && signupData == old(signupData)
      ensures redirectAfterLogin == old(redirectAfterLogin) && navigatedTo == old(navigatedTo)
    {
      isLogin := toLogin;
      errors := NoAuthErrors;
    }
  }
}
